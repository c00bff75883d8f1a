/**
 * The string normalisation the client applies to its configuration and to each
 * outgoing URL: trailing-slash removal on the base URL, leading-slash removal
 * on the request path, joining the two, and upper-casing the HTTP verb.
 */
module Text {

  /** `s.rstrip(c)`: `s` without every trailing occurrence of `c`. */
  function RStrip(s: string, c: char): (r: string)
    ensures r <= s
    ensures r == [] || r[|r| - 1] != c
    ensures forall i :: |r| <= i < |s| ==> s[i] == c
    decreases |s|
  {
    if |s| > 0 && s[|s| - 1] == c then RStrip(s[..|s| - 1], c) else s
  }

  /** `s.lstrip(c)`: `s` without every leading occurrence of `c`. */
  function LStrip(s: string, c: char): (r: string)
    ensures |r| <= |s| && r == s[|s| - |r|..]
    ensures r == [] || r[0] != c
    ensures forall i :: 0 <= i < |s| - |r| ==> s[i] == c
    decreases |s|
  {
    if |s| > 0 && s[0] == c then LStrip(s[1..], c) else s
  }

  lemma RStripIdempotent(s: string, c: char)
    ensures RStrip(RStrip(s, c), c) == RStrip(s, c)
  {
  }

  /** The URL of a request: `f"{base}/{path.lstrip('/')}"`. */
  function JoinUrl(base: string, path: string): (url: string)
    ensures |url| >= |base| + 1 && url[..|base|] == base && url[|base|] == '/'
    ensures url[|base| + 1..] == LStrip(path, '/')
    ensures |base| + 1 < |url| ==> url[|base| + 1] != '/'
  {
    base + "/" + LStrip(path, '/')
  }

  /** Leading slashes on a request path do not change the URL. */
  lemma {:induction false} JoinIgnoresLeadingSlashes(base: string, path: string, k: nat)
    ensures JoinUrl(base, Slashes(k) + path) == JoinUrl(base, path)
  {
    var s := Slashes(k) + path;
    if k == 0 {
      assert s == path;
    } else {
      assert s[0] == '/';
      assert s[1..] == Slashes(k - 1) + path;
      assert LStrip(s, '/') == LStrip(Slashes(k - 1) + path, '/');
      JoinIgnoresLeadingSlashes(base, path, k - 1);
    }
  }

  function Slashes(k: nat): (s: string)
    ensures |s| == k && forall i :: 0 <= i < k ==> s[i] == '/'
  {
    if k == 0 then "" else "/" + Slashes(k - 1)
  }

  /**
   * A base URL normalised by `RStrip` joined with any path has exactly one
   * slash at the seam: the base does not end with one and the path part does
   * not start with one.
   */
  lemma SingleSlashAtSeam(base: string, path: string)
    ensures var b := RStrip(base, '/');
            var url := JoinUrl(b, path);
            (b == [] || url[|b| - 1] != '/') && url[|b|] == '/' &&
            (|b| + 1 < |url| ==> url[|b| + 1] != '/')
  {
  }

  /** `str.upper()` restricted to ASCII: lower-case letters become upper-case. */
  function UpperChar(ch: char): (u: char)
    ensures !('a' <= u <= 'z')
    ensures 'a' <= ch <= 'z' ==> u as int == ch as int - 32
    ensures !('a' <= ch <= 'z') ==> u == ch
  {
    if 'a' <= ch <= 'z' then (ch as int - 32) as char else ch
  }

  function Upper(s: string): (r: string)
    ensures |r| == |s|
    ensures forall i :: 0 <= i < |s| ==> r[i] == UpperChar(s[i])
  {
    if s == [] then [] else [UpperChar(s[0])] + Upper(s[1..])
  }

  lemma {:induction false} UpperIdempotent(s: string)
    ensures Upper(Upper(s)) == Upper(s)
  {
    var u := Upper(s);
    assert Upper(u) == u by {
      assert |Upper(u)| == |u|;
      forall i | 0 <= i < |u| ensures Upper(u)[i] == u[i] {
        assert !('a' <= u[i] <= 'z');
      }
    }
  }

  /** The verbs the convenience wrappers pass are already upper-case: `upper` keeps them. */
  lemma VerbNames()
    ensures Upper("GET") == "GET" && Upper("POST") == "POST" && Upper("PUT") == "PUT"
    ensures Upper("PATCH") == "PATCH" && Upper("DELETE") == "DELETE"
  {
  }
}
