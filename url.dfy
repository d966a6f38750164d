/** `utils.Path`: setting the path of a URL from its parts. */
module UrlPath {

  /** The fields of a `url.URL` that the endpoint code builds. */
  class URL {
    var scheme: string
    var host: string
    var path: string
    var rawPath: string
    var rawQuery: string
    var fragment: string

    constructor (scheme: string, host: string)
      ensures this.scheme == scheme && this.host == host
      ensures path == "" && rawPath == "" && rawQuery == "" && fragment == ""
    {
      this.scheme := scheme;
      this.host := host;
      path := "";
      rawPath := "";
      rawQuery := "";
      fragment := "";
    }
  }

  /** Each part prefixed with "/", all concatenated in order. */
  function Absolute(parts: seq<string>): string
  {
    if |parts| == 0 then "" else Absolute(parts[..|parts| - 1]) + "/" + parts[|parts| - 1]
  }

  /** Every part run through `escape`. */
  function MapEscape(parts: seq<string>, escape: string -> string): (r: seq<string>)
    ensures |r| == |parts|
    ensures forall k :: 0 <= k < |parts| ==> r[k] == escape(parts[k])
  {
    if |parts| == 0 then [] else MapEscape(parts[..|parts| - 1], escape) + [escape(parts[|parts| - 1])]
  }

  /** Building the path of two lists of parts is building each and concatenating. */
  lemma {:induction false} AbsoluteAppend(a: seq<string>, b: seq<string>)
    ensures Absolute(a + b) == Absolute(a) + Absolute(b)
    decreases |b|
  {
    if |b| > 0 {
      var b' := b[..|b| - 1];
      assert (a + b)[..|a + b| - 1] == a + b';
      AbsoluteAppend(a, b');
    } else {
      assert a + b == a;
    }
  }

  /** The built path has one "/" per part on top of the parts' own lengths. */
  lemma {:induction false} AbsoluteLength(parts: seq<string>)
    ensures |Absolute(parts)| == |parts| + SumOfLengths(parts)
    decreases |parts|
  {
    if |parts| > 0 {
      AbsoluteLength(parts[..|parts| - 1]);
    }
  }

  function SumOfLengths(parts: seq<string>): nat
  {
    if |parts| == 0 then 0 else SumOfLengths(parts[..|parts| - 1]) + |parts[|parts| - 1]|
  }

  /** With at least one part the path is absolute: it starts with "/". */
  lemma {:induction false} AbsoluteStartsWithSlash(parts: seq<string>)
    requires |parts| > 0
    ensures |Absolute(parts)| > 0 && Absolute(parts)[0] == '/'
    decreases |parts|
  {
    if |parts| > 1 {
      AbsoluteStartsWithSlash(parts[..|parts| - 1]);
    }
  }

  /**
   * `Path(u, parts...)`: sets `u.Path` to the parts joined as an absolute path and `u.RawPath`
   * to the same over the parts escaped by `escape` (`url.PathEscape`), and returns `u` itself.
   */
  method Path(u: URL, parts: seq<string>, escape: string -> string) returns (r: URL)
    modifies u
    ensures r == u
    ensures u.path == Absolute(parts)
    ensures u.rawPath == Absolute(MapEscape(parts, escape))
    ensures u.scheme == old(u.scheme) && u.host == old(u.host)
    ensures u.rawQuery == old(u.rawQuery) && u.fragment == old(u.fragment)
  {
    var path, rawPath := "", "";
    var i := 0;
    while i < |parts|
      invariant 0 <= i <= |parts|
      invariant path == Absolute(parts[..i])
      invariant rawPath == Absolute(MapEscape(parts[..i], escape))
    {
      assert parts[..i + 1][..i] == parts[..i];
      path := path + "/";
      path := path + parts[i];
      rawPath := rawPath + "/";
      rawPath := rawPath + escape(parts[i]);
      i := i + 1;
    }
    assert parts[..i] == parts;
    u.path := path;
    u.rawPath := rawPath;
    return u;
  }
}
