/** getContentType of client/server/utils.go: the MIME type a static file
    is served with, chosen by the end of its path. */
module ContentType {

  predicate HasSuffix(s: string, suffix: string) {
    |suffix| <= |s| && s[|s| - |suffix|..] == suffix
  }

  /** The first matching suffix decides; no match means a byte stream. */
  function GetContentType(path: string): (r: string)
    ensures HasSuffix(path, ".css") ==> r == "text/css"
    ensures HasSuffix(path, ".svg") ==> r == "image/svg+xml"
    ensures HasSuffix(path, ".ttf") ==> r == "font/ttf"
    ensures !HasSuffix(path, ".css") && !HasSuffix(path, ".svg") && !HasSuffix(path, ".ttf")
            <==> r == "application/octet-stream"
  {
    if HasSuffix(path, ".css") then "text/css"
    else if HasSuffix(path, ".svg") then "image/svg+xml"
    else if HasSuffix(path, ".ttf") then "font/ttf"
    else "application/octet-stream"
  }

  lemma SuffixOfAppended(p: string, s: string)
    ensures HasSuffix(p + s, s)
  {
    assert (p + s)[|p + s| - |s|..] == s;
  }

  /** Only the last four characters matter: two paths ending alike get the
      same type, whatever comes before. */
  lemma OnlyTheEndMatters(p: string, q: string, s: string)
    requires |s| == 4
    ensures GetContentType(p + s) == GetContentType(q + s)
  {
    assert (p + s)[|p + s| - 4..] == s;
    assert (q + s)[|q + s| - 4..] == s;
  }

  /** Each known extension at the end of any path gives its type. */
  lemma KnownExtensions(p: string)
    ensures GetContentType(p + ".css") == "text/css"
    ensures GetContentType(p + ".svg") == "image/svg+xml"
    ensures GetContentType(p + ".ttf") == "font/ttf"
  {
    SuffixOfAppended(p, ".css");
    SuffixOfAppended(p, ".svg");
    SuffixOfAppended(p, ".ttf");
  }

  /** A known extension anywhere but at the end does not count. */
  lemma ExtensionNotAtEnd()
    ensures GetContentType("style.css.map") == "application/octet-stream"
    ensures GetContentType("icons.svg/") == "application/octet-stream"
    ensures GetContentType("") == "application/octet-stream"
  {
    assert "style.css.map"[9..] == ".map";
    assert "icons.svg/"[6..] == "svg/";
  }
}
