/**
 * The image-upload rules of the chat server: the extension whitelist
 * `allowed_file` and the loop of the generate handler that keeps the names of
 * the accepted uploads.
 */
module Uploads {

  import opened Wrappers

  /** The extensions accepted for uploaded images. */
  const ALLOWED_EXTENSIONS: set<string> := {"png", "jpg", "jpeg", "gif"}

  /** Lower-casing of one character; only the ASCII letters A-Z change. */
  function LowerChar(c: char): char
  {
    if 'A' <= c <= 'Z' then (c as int - 'A' as int + 'a' as int) as char else c
  }

  /** `str.lower()` on ASCII letters: the same string with A-Z replaced by a-z. */
  function Lower(s: string): (r: string)
    ensures |r| == |s|
    ensures forall k :: 0 <= k < |s| ==> r[k] == LowerChar(s[k])
    decreases |s|
  {
    if s == [] then [] else [LowerChar(s[0])] + Lower(s[1..])
  }

  /** The position of the last '.' in `s`, the one `rsplit('.', 1)` splits at. */
  function LastDot(s: string): (r: Option<nat>)
    ensures r.Some? ==> r.value < |s| && s[r.value] == '.'
    ensures r.Some? ==> forall j :: r.value < j < |s| ==> s[j] != '.'
    ensures r.None? <==> forall j :: 0 <= j < |s| ==> s[j] != '.'
    decreases |s|
  {
    if |s| == 0 then None
    else if s[|s| - 1] == '.' then Some(|s| - 1)
    else LastDot(s[..|s| - 1])
  }

  /** The lower-cased text after the last '.', or None when there is no '.'. */
  function Extension(filename: string): Option<string>
  {
    match LastDot(filename)
    case None => None
    case Some(i) => Some(Lower(filename[i + 1..]))
  }

  /** `allowed_file`. */
  predicate AllowedFile(filename: string)
  {
    Extension(filename).Some? && Extension(filename).value in ALLOWED_EXTENSIONS
  }

  /** Position i of s holds a '.' and no '.' follows it. */
  predicate IsLastDot(s: string, i: int)
  {
    0 <= i < |s| && s[i] == '.' && forall j :: i < j < |s| ==> s[j] != '.'
  }

  /** The last '.' is the one LastDot finds. */
  lemma LastDotAt(s: string, i: int)
    requires IsLastDot(s, i)
    ensures LastDot(s) == Some(i)
  {
  }

  /**
   * A name is accepted exactly when it contains a '.' and the text after its
   * last '.', lower-cased, is one of the allowed extensions.
   */
  lemma AllowedFileMeans(filename: string)
    ensures AllowedFile(filename) <==>
              exists i :: IsLastDot(filename, i) && Lower(filename[i + 1..]) in ALLOWED_EXTENSIONS
  {
    match LastDot(filename)
    case None =>
      forall i | IsLastDot(filename, i)
        ensures false
      {
        LastDotAt(filename, i);
      }
    case Some(i) =>
      assert IsLastDot(filename, i);
      forall k | IsLastDot(filename, k)
        ensures k == i
      {
        LastDotAt(filename, k);
      }
  }

  /** Lower-casing moves no '.', so the last dot stays where it was. */
  lemma {:induction false} LastDotLower(s: string)
    ensures LastDot(Lower(s)) == LastDot(s)
    decreases |s|
  {
    if |s| > 0 {
      var init := s[..|s| - 1];
      assert Lower(s)[..|s| - 1] == Lower(init);
      assert Lower(s)[|s| - 1] == LowerChar(s[|s| - 1]);
      LastDotLower(init);
    }
  }

  /** Lower-casing twice is lower-casing once. */
  lemma LowerIdempotent(s: string)
    ensures Lower(Lower(s)) == Lower(s)
  {
  }

  /** Lower-casing commutes with taking a suffix. */
  lemma LowerSuffix(s: string, i: nat)
    requires i <= |s|
    ensures Lower(s)[i..] == Lower(s[i..])
  {
  }

  /** The extension does not depend on the case of the name. */
  lemma ExtensionIgnoresCase(filename: string)
    ensures Extension(Lower(filename)) == Extension(filename)
  {
    LastDotLower(filename);
    match LastDot(filename)
    case None =>
    case Some(i) =>
      LowerSuffix(filename, i + 1);
      LowerIdempotent(filename[i + 1..]);
  }

  /** So neither does the whitelist. */
  lemma AllowedFileIgnoresCase(filename: string)
    ensures AllowedFile(Lower(filename)) == AllowedFile(filename)
  {
    ExtensionIgnoresCase(filename);
  }

  /** The extension of stem + "." + ext, with no '.' in ext, is ext lower-cased. */
  lemma ExtensionAfterDot(stem: string, ext: string)
    requires forall j :: 0 <= j < |ext| ==> ext[j] != '.'
    ensures Extension(stem + "." + ext) == Some(Lower(ext))
  {
    var name := stem + "." + ext;
    var after := name[|stem| + 1..];
    assert after == ext;
    forall j | |stem| < j < |name|
      ensures name[j] != '.'
    {
      assert name[j] == after[j - |stem| - 1];
    }
    LastDotAt(name, |stem|);
  }

  /** So such a name is accepted exactly when ext is, in any case. */
  lemma AllowedFileByExtension(stem: string, ext: string)
    requires forall j :: 0 <= j < |ext| ==> ext[j] != '.'
    ensures AllowedFile(stem + "." + ext) <==> Lower(ext) in ALLOWED_EXTENSIONS
  {
    ExtensionAfterDot(stem, ext);
  }

  /**
   * The image names the generate handler keeps, in upload order: every upload
   * whose name is non-empty and passes AllowedFile, renamed by `sanitize`.
   */
  function AcceptedImages(uploads: seq<string>, sanitize: string -> string): (names: seq<string>)
    ensures |names| <= |uploads|
    decreases |uploads|
  {
    if uploads == [] then []
    else
      var rest := AcceptedImages(uploads[..|uploads| - 1], sanitize);
      var name := uploads[|uploads| - 1];
      if name != "" && AllowedFile(name) then rest + [sanitize(name)] else rest
  }

  /** Every kept name comes from an upload that passed the whitelist. */
  lemma {:induction false} AcceptedImagesSound(uploads: seq<string>, sanitize: string -> string)
    ensures forall n :: n in AcceptedImages(uploads, sanitize) ==>
              exists u :: u in uploads && AllowedFile(u) && n == sanitize(u)
    decreases |uploads|
  {
    if uploads != [] {
      var init := uploads[..|uploads| - 1];
      var name := uploads[|uploads| - 1];
      AcceptedImagesSound(init, sanitize);
      forall n | n in AcceptedImages(uploads, sanitize)
        ensures exists u :: u in uploads && AllowedFile(u) && n == sanitize(u)
      {
        if n in AcceptedImages(init, sanitize) {
          var u :| u in init && AllowedFile(u) && n == sanitize(u);
          assert u in uploads;
        } else {
          assert name in uploads;
        }
      }
    }
  }

  /** Every upload that passed the whitelist is kept. */
  lemma {:induction false} AcceptedImagesComplete(uploads: seq<string>, sanitize: string -> string)
    ensures forall u :: u in uploads && AllowedFile(u) ==> sanitize(u) in AcceptedImages(uploads, sanitize)
    decreases |uploads|
  {
    if uploads != [] {
      var init := uploads[..|uploads| - 1];
      var name := uploads[|uploads| - 1];
      AcceptedImagesComplete(init, sanitize);
      forall u | u in uploads && AllowedFile(u)
        ensures sanitize(u) in AcceptedImages(uploads, sanitize)
      {
        assert u != "";
        if u != name {
          assert uploads == init + [name];
          assert u in init;
        }
      }
    }
  }

  /** The collecting loop of the generate handler. */
  method CollectImages(uploads: seq<string>, sanitize: string -> string) returns (images: seq<string>)
    ensures images == AcceptedImages(uploads, sanitize)
  {
    images := [];
    var i := 0;
    while i < |uploads|
      invariant 0 <= i <= |uploads|
      invariant images == AcceptedImages(uploads[..i], sanitize)
    {
      var name := uploads[i];
      if name != "" && AllowedFile(name) {
        images := images + [sanitize(name)];
      }
      assert uploads[..i + 1][..i] == uploads[..i];
      i := i + 1;
    }
    assert uploads[..|uploads|] == uploads;
  }
}
