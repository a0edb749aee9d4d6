/**
  The file-extension to MIME-type mapping used when a local image file becomes
  the page background: the path's suffix (as `pathlib` computes it) is
  lower-cased and mapped, with JPEG as the fallback.
 */
module Mime {
  import opened Wrappers
  import opened Text

  /** A path with its trailing separators removed, as `pathlib` normalises it. */
  function TrimSlashes(path: string): (r: string)
    ensures r <= path
    ensures r == [] || r[|r| - 1] != '/'
    ensures forall i :: |r| <= i < |path| ==> path[i] == '/'
    decreases |path|
  {
    if path != [] && path[|path| - 1] == '/' then TrimSlashes(path[..|path| - 1]) else path
  }

  /** `Path(p).name`: the final component of the path, after the last `/`. */
  function Name(path: string): (r: string)
    ensures '/' !in r
    ensures exists k ::
      && 0 <= k <= |TrimSlashes(path)|
      && r == TrimSlashes(path)[k..]
      && (k == 0 || TrimSlashes(path)[k - 1] == '/')
  {
    var t := TrimSlashes(path);
    match LastIndexOf(t, '/')
    case Some(i) => assert t[i + 1 - 1] == '/'; t[i + 1..]
    case None => assert t == t[0..]; t
  }

  /**
    `Path(p).suffix`: from the last `.` of the final component to its end,
    provided that dot is neither its first nor its last character; otherwise empty.
   */
  function Suffix(path: string): (r: string)
    ensures r == [] || (r[0] == '.' && '.' !in r[1..] && '/' !in r && |r| >= 2)
    ensures var n := Name(path); r != [] ==> |r| < |n| && n[|n| - |r|..] == r
    ensures var n := Name(path);
      r == [] <==> forall i :: 0 < i < |n| - 1 && n[i] == '.' ==> '.' in n[i + 1..]
  {
    var name := Name(path);
    match LastIndexOf(name, '.')
    case Some(i) => if 0 < i < |name| - 1 then name[i..] else []
    case None => []
  }

  /** `mime_type` as chosen by `set_background_from_file`. */
  function MimeType(path: string): (m: string)
    ensures m == "image/jpeg" || m == "image/png" || m == "image/gif"
    ensures m == "image/png" <==> Lower(Suffix(path)) == ".png"
    ensures m == "image/gif" <==> Lower(Suffix(path)) == ".gif"
  {
    var ext := Lower(Suffix(path));
    if ext == ".jpg" || ext == ".jpeg" then "image/jpeg"
    else if ext == ".png" then "image/png"
    else if ext == ".gif" then "image/gif"
    else "image/jpeg"
  }

  /** Two paths whose suffixes agree up to ASCII case get the same MIME type. */
  lemma MimeTypeCaseBlind(p: string, q: string)
    requires Lower(Suffix(p)) == Lower(Suffix(q))
    ensures MimeType(p) == MimeType(q)
  {
  }

  /** An upper-case extension maps like its lower-case form. */
  lemma MimeTypeUpperCasePng()
    ensures MimeType("/home/u/Pics/bg.PNG") == "image/png"
  {
    SuffixOfUpperCasePng();
    LowerDotPng();
  }

  lemma LowerDotPng()
    ensures Lower(".PNG") == ".png"
  {
  }

  lemma SuffixOfUpperCasePng()
    ensures Suffix("/home/u/Pics/bg.PNG") == ".PNG"
  {
    NameOfUpperCasePng();
    assert LastIndexOf("bg.PNG", '.') == Some(2);
    assert "bg.PNG"[2..] == ".PNG";
  }

  lemma NameOfUpperCasePng()
    ensures Name("/home/u/Pics/bg.PNG") == "bg.PNG"
  {
    var a := "/home/u/Pics/bg.PNG";
    assert TrimSlashes(a) == a;
    assert LastIndexOf(a, '/') == Some(12);
  }

  /** A dot in a directory name is not a suffix; the file without one falls back to JPEG. */
  lemma MimeTypeDotInDirectory()
    ensures MimeType("my.photos/sunset") == "image/jpeg"
  {
    var c := "my.photos/sunset";
    assert TrimSlashes(c) == c;
    assert LastIndexOf(c, '/') == Some(9);
    assert Name(c) == "sunset";
    assert forall k :: 0 <= k < |"sunset"| ==> "sunset"[k] != '.';
    assert LastIndexOf("sunset", '.') == None;
    assert Suffix(c) == [];
    assert Lower([]) == [];
  }

  /** A hidden file such as `.png` has no suffix, so it is not treated as PNG. */
  lemma MimeTypeHiddenFile()
    ensures MimeType(".png") == "image/jpeg"
  {
    assert LastIndexOf(".png", '/') == None;
    assert LastIndexOf(".png", '.') == Some(0);
  }
}
