/** Object keys.  An upload is stored under `hexdigest + suffix`; the image worker cuts
    the key at its first dot to get the digest back, and stores six derivatives below it. */
module Keys {

  type Key = string

  /** The kinds of ALLOWED_FILES. */
  datatype Kind = Pdf | Image | Ppt | Video | Text | Refused

  function KindOf(ext: string): Kind {
    if ext == ".pdf" then Pdf
    else if ext == ".png" || ext == ".jpeg" then Image
    else if ext == ".ppt" then Ppt
    else if ext == ".mkv" then Video
    else if ext == ".txt" then Text
    else Refused
  }

  predicate DotFree(s: string) { '.' !in s }

  /** A hexadecimal digest and an allowed suffix. */
  predicate WellFormed(hash: string, ext: string) {
    DotFree(hash) && !KindOf(ext).Refused?
  }

  /** The part of `s` before the first `c`, or all of `s`. */
  function Before(s: string, c: char): string {
    if s == "" || s[0] == c then "" else [s[0]] + Before(s[1..], c)
  }

  /** `key.split(".")[0]` */
  function Stem(key: string): string { Before(key, '.') }

  lemma {:induction false} CutAtSeparator(s: string, c: char, t: string)
    requires c !in s
    ensures Before(s + [c] + t, c) == s
  {
    var whole := s + [c] + t;
    if s != "" {
      CutAtSeparator(s[1..], c, t);
      assert whole[1..] == s[1..] + [c] + t;
    }
  }

  lemma StemOfKey(hash: string, ext: string)
    requires WellFormed(hash, ext)
    ensures Stem(hash + ext) == hash
  {
    CutAtSeparator(hash, '.', ext[1..]);
    assert hash + ext == hash + ['.'] + ext[1..];
  }

  /** `{upload_id}/{size}.{format}` for the three sizes and two formats. */
  function Names(): seq<string> {
    ["128.webp", "128.jpeg", "512.webp", "512.jpeg", "1024.webp", "1024.jpeg"]
  }

  function Derivative(uploadId: string, k: nat): string
    requires k < |Names()|
  {
    uploadId + "/" + Names()[k]
  }

  function Derivatives(uploadId: string): set<string> {
    set k: nat | k < |Names()| :: Derivative(uploadId, k)
  }

  /** Two files overwrite each other's derivatives only if they share the upload id:
      names never collide, neither within a file nor across files. */
  lemma DerivativesAreDistinct(u: string, k: nat, v: string, l: nat)
    requires k < |Names()| && l < |Names()|
    requires '/' !in u && '/' !in v
    ensures Derivative(u, k) == Derivative(v, l) <==> u == v && k == l
  {
    CutAtSeparator(u, '/', Names()[k]);
    CutAtSeparator(v, '/', Names()[l]);
    assert Derivative(u, k)[|u| + 1..] == Names()[k];
    assert Derivative(v, l)[|v| + 1..] == Names()[l];
    if Names()[k] == Names()[l] {
      NamesDiffer(k, l);
    }
  }

  lemma NamesDiffer(k: nat, l: nat)
    requires k < |Names()| && l < |Names()| && Names()[k] == Names()[l]
    ensures k == l
  {
    var a, b := Names()[k], Names()[l];
    assert |a| == |b| && a[0] == b[0] && a[|a| - 4] == b[|b| - 4];
  }
}
