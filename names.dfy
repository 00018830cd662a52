/**
 * Name derivations of the module: the `size_t` string searches of the C++
 * standard library, the extension kept by an uploaded file, the temporary
 * name an upload is moved to, and the PHP class name taken from the uri.
 */
module Names {
  import opened Base
  import Hex

  const TEMP_DIRECTORY: string := "temp"

  /** `std::string::find_last_of(c)`: the last position holding `c`; `None` stands for npos. */
  function FindLastOf(s: string, c: char): (p: Option<nat>)
    ensures p.None? <==> c !in s
    ensures p.Some? ==> p.value < |s| && s[p.value] == c && forall i :: p.value < i < |s| ==> s[i] != c
  {
    FindLastBefore(s, c, |s|)
  }

  /** The backwards scan behind `find_last_of`, over the first `n` characters. */
  function FindLastBefore(s: string, c: char, n: nat): (p: Option<nat>)
    requires n <= |s|
    ensures p.None? <==> forall i :: 0 <= i < n ==> s[i] != c
    ensures p.Some? ==> p.value < n && s[p.value] == c && forall i :: p.value < i < n ==> s[i] != c
  {
    if n == 0 then None
    else if s[n - 1] == c then Some(n - 1)
    else FindLastBefore(s, c, n - 1)
  }

  /** A search result as the `size_t` the C++ code computes with. */
  function Pos(p: Option<nat>): (n: nat)
    ensures p.None? ==> n == NPOS
  {
    if p.Some? then p.value else NPOS
  }

  /** `std::string::substr(pos, count)`: `None` when it throws `out_of_range`; the count is clipped to the end. */
  function Substr(s: string, pos: nat, count: nat): (r: Option<string>)
    ensures r.Some? <==> pos <= |s|
    ensures r.Some? ==> pos + |r.value| <= |s| && |r.value| <= count && r.value == s[pos..pos + |r.value|]
    ensures r.Some? && |r.value| < count ==> pos + |r.value| == |s|
  {
    if pos > |s| then None
    else if count <= |s| - pos then Some(s[pos..pos + count])
    else Some(s[pos..])
  }

  // Reference definitions, stated without positions or wrap-around.

  /** The path segment after the last `/` (the whole text when there is none). */
  function LastSegment(s: string): string
  {
    if s == [] || s[|s| - 1] == '/' then [] else LastSegment(s[..|s| - 1]) + [s[|s| - 1]]
  }

  /** Everything before the last `.` (the whole text when there is none). */
  function Stem(s: string): string
  {
    if '.' !in s then s
    else if s[|s| - 1] == '.' then s[..|s| - 1]
    else Stem(s[..|s| - 1])
  }

  /** The suffix from the last `.` inclusive (empty when there is none). */
  function Ext(s: string): string
  {
    if '.' !in s then []
    else if s[|s| - 1] == '.' then "."
    else Ext(s[..|s| - 1]) + [s[|s| - 1]]
  }

  /** A name splits into its stem and its extension. */
  lemma {:induction false} StemExt(s: string)
    ensures Stem(s) + Ext(s) == s
  {
    if '.' in s && s[|s| - 1] != '.' {
      var init := s[..|s| - 1];
      assert '.' in init by {
        var i :| 0 <= i < |s| && s[i] == '.';
        assert init[i] == '.';
      }
      StemExt(init);
      assert s == init + [s[|s| - 1]];
    }
  }

  /** An extension is empty exactly when there is no dot; otherwise it is a dot followed by dot-free text. */
  lemma {:induction false} ExtShape(s: string)
    ensures Ext(s) == [] <==> '.' !in s
    ensures Ext(s) != [] ==> Ext(s)[0] == '.' && '.' !in Ext(s)[1..]
    ensures |Ext(s)| <= |s| && Ext(s) == s[|s| - |Ext(s)|..]
  {
    if '.' in s && s[|s| - 1] != '.' {
      var init := s[..|s| - 1];
      assert '.' in init by {
        var i :| 0 <= i < |s| && s[i] == '.';
        assert init[i] == '.';
      }
      ExtShape(init);
      assert Ext(s)[1..] == Ext(init)[1..] + [s[|s| - 1]];
      var k := |Ext(init)|;
      assert s[|s| - (k + 1)..] == init[|init| - k..] + [s[|s| - 1]];
    }
  }

  /** Stem and extension split the text at its last dot. */
  lemma {:induction false} SplitAtLastDot(s: string, q: nat)
    requires FindLastOf(s, '.') == Some(q)
    ensures Stem(s) == s[..q] && Ext(s) == s[q..]
  {
    if s[|s| - 1] != '.' {
      var init := s[..|s| - 1];
      assert init[q] == '.';
      assert FindLastOf(init, '.') == Some(q);
      SplitAtLastDot(init, q);
      assert s[q..] == init[q..] + [s[|s| - 1]];
    }
  }

  /** The last segment is what follows the last slash. */
  lemma {:induction false} SegmentAfterSlash(s: string)
    ensures FindLastOf(s, '/').None? ==> LastSegment(s) == s
    ensures FindLastOf(s, '/').Some? ==> LastSegment(s) == s[FindLastOf(s, '/').value + 1..]
  {
    if s != [] && s[|s| - 1] != '/' {
      var init := s[..|s| - 1];
      SegmentAfterSlash(init);
      assert FindLastOf(s, '/') == FindLastOf(init, '/');
      if FindLastOf(s, '/').Some? {
        var p := FindLastOf(s, '/').value;
        assert s[p + 1..] == init[p + 1..] + [s[|s| - 1]];
      } else {
        assert s == init + [s[|s| - 1]];
      }
    }
  }

  /** The extension kept by an uploaded file (lines 496-500): from the last `.` on, or nothing. */
  function UploadExtension(fileName: string): (ext: string)
    ensures ext == [] <==> '.' !in fileName
    ensures ext != [] ==> ext[0] == '.' && '.' !in ext[1..]
  {
    var p := FindLastOf(fileName, '.');
    if p.None? then "" else Substr(fileName, p.value, NPOS).value
  }

  /** The search-and-substr extension agrees with the reference definition. */
  lemma UploadExtensionIsExt(fileName: string)
    requires |fileName| <= NPOS
    ensures UploadExtension(fileName) == Ext(fileName)
  {
    var p := FindLastOf(fileName, '.');
    if p.Some? {
      SplitAtLastDot(fileName, p.value);
    }
  }

  /** `random_string` (lines 751-755): the hex MD5 of the text followed by the `ctime` rendering of the clock. */
  function RandomString(md5: string -> Digest, ctime: int -> string, s: string, now: int): (r: string)
    ensures |r| == 32 && Hex.IsHexText(r)
  {
    Hex.Encode(md5(s + ctime(now)))
  }

  /** The final path of an uploaded file (line 501). */
  function UploadPath(md5: string -> Digest, ctime: int -> string, client: string, fileName: string, now: int): (path: string)
    ensures |path| == 37 + |UploadExtension(fileName)|
    ensures path[..5] == "temp/" && Hex.IsHexText(path[5..37]) && path[37..] == UploadExtension(fileName)
  {
    TEMP_DIRECTORY + ("/" + RandomString(md5, ctime, client + fileName, now) + UploadExtension(fileName))
  }

  /** An upload lands in `temp/`, under 32 hex characters, and keeps the original extension. */
  lemma UploadPathShape(md5: string -> Digest, ctime: int -> string, client: string, fileName: string, now: int)
    requires |fileName| <= NPOS
    ensures var path := UploadPath(md5, ctime, client, fileName, now);
      && |path| == 37 + |Ext(fileName)|
      && path[..5] == "temp/"
      && Hex.IsHexText(path[5..37])
      && path[37..] == Ext(fileName)
      && path[5..37] == Hex.Encode(md5(client + fileName + ctime(now)))
  {
    UploadExtensionIsExt(fileName);
    var h := RandomString(md5, ctime, client + fileName, now);
    var path := UploadPath(md5, ctime, client, fileName, now);
    assert path == "temp/" + h + Ext(fileName);
    assert path[5..37] == h;
  }

  /**
   * Two uploads of the same file name by the same client whose clock readings
   * render to the same `ctime` text (the same second) get the same path.
   */
  lemma UploadPathCollision(md5: string -> Digest, ctime: int -> string, client: string, fileName: string, t1: int, t2: int)
    requires ctime(t1) == ctime(t2)
    ensures UploadPath(md5, ctime, client, fileName, t1) == UploadPath(md5, ctime, client, fileName, t2)
  {
  }

  /**
   * The PHP class name (lines 797-799): `uri.substr(p + 1, q - 1 - p)` with `p`, `q`
   * the last `/` and the last `.`, all in wrapping `size_t` arithmetic.
   */
  function ClassName(uri: string): (name: Option<string>)
    requires |uri| < NPOS
    ensures name.Some? && |name.value| <= |uri|
  {
    var p := Pos(FindLastOf(uri, '/'));
    var q := Pos(FindLastOf(uri, '.'));
    Substr(uri, SizeT(p + 1), SizeT(q - 1 - p))
  }

  /** A dot inside the last segment: the class name is the text between the slash and that dot. */
  lemma ClassNameDotInSegment(uri: string, p: nat, q: nat)
    requires |uri| < NPOS
    requires FindLastOf(uri, '/') == Some(p) && FindLastOf(uri, '.') == Some(q) && q > p
    ensures ClassName(uri) == Some(Stem(LastSegment(uri)))
  {
    ClassNameBetween(uri, p, q);
    SegmentStemBetween(uri, p, q);
  }

  lemma ClassNameBetween(uri: string, p: nat, q: nat)
    requires |uri| < NPOS
    requires FindLastOf(uri, '/') == Some(p) && FindLastOf(uri, '.') == Some(q) && q > p
    ensures ClassName(uri) == Some(uri[p + 1..q])
  {
    assert Pos(FindLastOf(uri, '/')) == p && Pos(FindLastOf(uri, '.')) == q;
    assert SizeT(p + 1) == p + 1 && SizeT(q - 1 - p) == q - 1 - p;
  }

  lemma SegmentStemBetween(uri: string, p: nat, q: nat)
    requires FindLastOf(uri, '/') == Some(p) && FindLastOf(uri, '.') == Some(q) && q > p
    ensures Stem(LastSegment(uri)) == uri[p + 1..q]
  {
    SegmentAfterSlash(uri);
    StemUpToDot(uri, p, q);
  }

  /** The stem of the text after position `p` ends at the last dot `q`. */
  lemma StemUpToDot(uri: string, p: nat, q: nat)
    requires p < q < |uri| && uri[q] == '.' && forall i :: q < i < |uri| ==> uri[i] != '.'
    ensures Stem(uri[p + 1..]) == uri[p + 1..q]
  {
    var seg := uri[p + 1..];
    var k := q - p - 1;
    assert seg[k] == '.';
    assert seg[k + 1..] == uri[q + 1..];
    LastOfIsUnique(seg, '.', k);
    SplitAtLastDot(seg, k);
    assert seg[..k] == uri[p + 1..q];
  }

  /** A position holding `c` with no `c` after it is what `find_last_of` returns. */
  lemma LastOfIsUnique(s: string, c: char, k: nat)
    requires k < |s| && s[k] == c && forall i :: k < i < |s| ==> s[i] != c
    ensures FindLastOf(s, c) == Some(k)
  {
  }

  /** No dot inside the last segment: the class name is the whole segment. */
  lemma ClassNameNoDotInSegment(uri: string, p: nat)
    requires |uri| < NPOS
    requires FindLastOf(uri, '/') == Some(p)
    requires FindLastOf(uri, '.').None? || FindLastOf(uri, '.').value < p
    ensures ClassName(uri) == Some(Stem(LastSegment(uri)))
  {
    SegmentAfterSlash(uri);
    var seg := uri[p + 1..];
    var q := Pos(FindLastOf(uri, '.'));
    assert SizeT(p + 1) == p + 1;
    assert SizeT(q - 1 - p) >= |uri| - (p + 1);
  }

  /** No slash at all: `p + 1` wraps to 0 and `q - 1 - p` wraps to `q` (or to npos). */
  lemma ClassNameNoSlash(uri: string)
    requires |uri| < NPOS
    requires FindLastOf(uri, '/').None?
    ensures ClassName(uri) == Some(Stem(LastSegment(uri)))
  {
    SegmentAfterSlash(uri);
    var Q := FindLastOf(uri, '.');
    assert Pos(FindLastOf(uri, '/')) == NPOS;
    assert SizeT(NPOS + 1) == 0;
    if Q.Some? {
      assert SizeT(Q.value - 1 - NPOS) == Q.value;
      assert ClassName(uri) == Substr(uri, 0, Q.value);
      SplitAtLastDot(uri, Q.value);
    } else {
      assert SizeT(NPOS - 1 - NPOS) == NPOS;
      assert ClassName(uri) == Substr(uri, 0, NPOS);
    }
  }

  lemma SlashAndDotDiffer(uri: string)
    ensures FindLastOf(uri, '/').None? || FindLastOf(uri, '.').None?
      || FindLastOf(uri, '/').value != FindLastOf(uri, '.').value
  {
  }

  /**
   * Whatever the uri, the wrap-around makes the class name the last path
   * segment without its extension: with no `/` the segment is the whole uri,
   * and a dot outside the last segment (or no dot) strips nothing.
   */
  lemma ClassNameIsStem(uri: string)
    requires |uri| < NPOS
    ensures ClassName(uri) == Some(Stem(LastSegment(uri)))
  {
    var P := FindLastOf(uri, '/');
    var Q := FindLastOf(uri, '.');
    if P.None? {
      ClassNameNoSlash(uri);
    } else if Q.Some? && Q.value > P.value {
      ClassNameDotInSegment(uri, P.value, Q.value);
    } else {
      SlashAndDotDiffer(uri);
      ClassNameNoDotInSegment(uri, P.value);
    }
  }
}
