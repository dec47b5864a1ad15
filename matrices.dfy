/**
 * The matrix listing of the manager (manager/app/matrices.py): the CSV
 * matrices stored under the `arbo` and `respat` report folders of the
 * `public` bucket, each turned into a dictionary with its name, project,
 * path, size, modification time and public URL.
 *
 * The storage listing is an input: the two folder listings arrive as
 * sequences of `(path, size, last_modified)` tuples, and the environment
 * as a map.
 */
module Matrices {
  import opened Common
  import opened Text

  /** One `(path, size, last_modified)` tuple of a folder listing. */
  datatype Listing = Listing(path: string, size: int, lastModified: string)

  /** The dictionary built for one listing. */
  datatype Matrix = Matrix(name: string, project: string, path: string, size: int, lastModified: string, url: string)

  const ArboFolder := "arbo/reports/current/matrices/csv/"
  const RespatFolder := "respat/reports/current/matrices/csv/"
  const DefaultBaseUrl := "http://localhost:9000"

  /** `os.getenv("MINIO_BASE_URL", "http://localhost:9000")`: a variable that is set wins, even when empty. */
  function BaseUrl(env: map<string, string>): string {
    if "MINIO_BASE_URL" in env then env["MINIO_BASE_URL"] else DefaultBaseUrl
  }

  /** `'arbo' if 'arbo' in path else 'respat'`. */
  function ProjectOf(path: string): string {
    if Contains(path, "arbo") then "arbo" else "respat"
  }

  /** The dictionary of one listing. */
  function MatrixOf(info: Listing, base: string): Matrix {
    Matrix(LastPiece(info.path, "/"), ProjectOf(info.path), info.path, info.size, info.lastModified,
           base + "/public/" + info.path)
  }

  /** `list_matrices`: the arbo listing, then the respat listing, one dictionary per tuple. */
  function ListMatrices(arbo: seq<Listing>, respat: seq<Listing>, env: map<string, string>): (r: seq<Matrix>)
    ensures |r| == |arbo| + |respat|
  {
    var all := arbo + respat;
    seq(|all|, k requires 0 <= k < |all| => MatrixOf(all[k], BaseUrl(env)))
  }

  /**
   * Each dictionary is its listing's: the name is the path's last
   * '/'-separated segment, path, size and modification time are copied, and
   * the URL is the base, `/public/`, then the path.
   */
  lemma MatrixOfListing(info: Listing, base: string)
    ensures var m := MatrixOf(info, base);
      && (forall i :: 0 <= i < |m.name| ==> m.name[i] != '/')
      && EndsWith(info.path, m.name)
      && (m.name == info.path || OccursAt(info.path, "/", |info.path| - |m.name| - 1))
      && m.path == info.path && m.size == info.size && m.lastModified == info.lastModified
      && m.url[..|base| + 8] == base + "/public/" && m.url[|base| + 8..] == info.path
  {
    LastSegment(info.path);
    PublicUrl(base, info.path);
  }

  /** The last '/'-separated segment of a path: no '/' in it, a suffix of the path, after a '/' unless it is the whole path. */
  lemma LastSegment(path: string)
    ensures forall i :: 0 <= i < |LastPiece(path, "/")| ==> LastPiece(path, "/")[i] != '/'
    ensures EndsWith(path, LastPiece(path, "/"))
    ensures LastPiece(path, "/") == path || OccursAt(path, "/", |path| - |LastPiece(path, "/")| - 1)
  {
    var name := LastPiece(path, "/");
    LastPieceIsTail(path, "/");
    LastPieceHasNoSeparator(path, "/");
    FindSingleChar(name, '/');
    assert |name| == |path| ==> name == path[|path| - |name|..] == path;
  }

  /** The public URL splits back into the base with `/public/`, then the path. */
  lemma PublicUrl(base: string, path: string)
    ensures (base + "/public/" + path)[..|base| + 8] == base + "/public/"
    ensures (base + "/public/" + path)[|base| + 8..] == path
  {
  }

  /** The project is `arbo` exactly when `arbo` occurs in the path, and `respat` otherwise. */
  lemma ProjectIffArboInPath(path: string)
    ensures ProjectOf(path) == "arbo" <==> exists i: nat :: OccursAt(path, "arbo", i)
    ensures ProjectOf(path) == "respat" <==> forall i: nat :: !OccursAt(path, "arbo", i)
  {
    ContainsIffOccurs(path, "arbo");
  }

  /** The listings keep their order: the arbo ones first, the respat ones after them. */
  lemma {:induction false} ListMatricesInOrder(arbo: seq<Listing>, respat: seq<Listing>, env: map<string, string>)
    ensures var r := ListMatrices(arbo, respat, env);
      && (forall k :: 0 <= k < |arbo| ==> r[k] == MatrixOf(arbo[k], BaseUrl(env)))
      && (forall k :: 0 <= k < |respat| ==> r[|arbo| + k] == MatrixOf(respat[k], BaseUrl(env)))
  {
    var all := arbo + respat;
    assert forall k :: 0 <= k < |respat| ==> all[|arbo| + k] == respat[k];
  }

  /** Every file listed from the arbo folder is an `arbo` matrix. */
  lemma ArboFolderIsArbo(file: string)
    ensures ProjectOf(ArboFolder + file) == "arbo"
  {
    var path := ArboFolder + file;
    assert path[..4] == "arbo";
    assert OccursAt(path, "arbo", 0);
    ContainsIffOccurs(path, "arbo");
  }

  /**
   * A file listed from the respat folder is a `respat` matrix unless its own
   * name contains `arbo`: the folder name decides nothing.
   */
  lemma RespatFolderProject(file: string)
    ensures ProjectOf(RespatFolder + file) == "arbo" <==> exists i: nat :: OccursAt(file, "arbo", i)
  {
    var path := RespatFolder + file;
    var n := |RespatFolder|;
    ContainsIffOccurs(path, "arbo");
    RespatFolderHasNoArbo(file);
    forall i: nat ensures OccursAt(path, "arbo", n + i) <==> OccursAt(file, "arbo", i) {
      OccursAfterPrefix(RespatFolder, file, "arbo", i);
    }
    if exists i: nat :: OccursAt(path, "arbo", i) {
      var i: nat :| OccursAt(path, "arbo", i);
      assert OccursAt(file, "arbo", i - n);
    }
  }

  /** No `arbo` starts inside the respat folder name, whatever follows it. */
  lemma RespatFolderHasNoArbo(file: string)
    ensures forall i: nat :: i < |RespatFolder| ==> !OccursAt(RespatFolder + file, "arbo", i)
  {
    var path := RespatFolder + file;
    var n := |RespatFolder|;
    assert forall j :: 0 <= j < n ==> RespatFolder[j] != 'b';
    assert RespatFolder[n - 2] == 'v' && RespatFolder[n - 1] == '/';
    forall i: nat | i < n ensures !OccursAt(path, "arbo", i) {
      if i + 4 <= |path| {
        var w := path[i..i + 4];
        if i + 2 < n {
          assert w[2] == path[i + 2] == RespatFolder[i + 2] != 'b';
        } else {
          assert i == n - 2 || i == n - 1;
          assert w[0] == path[i] == RespatFolder[i] != 'a';
        }
        assert w != "arbo";
      }
    }
  }

  /** An occurrence in `file` is an occurrence in `pre + file`, shifted by the length of `pre`. */
  lemma OccursAfterPrefix(pre: string, file: string, t: string, i: nat)
    ensures OccursAt(pre + file, t, |pre| + i) <==> OccursAt(file, t, i)
  {
    var path := pre + file;
    if |pre| + i + |t| <= |path| {
      assert path[|pre| + i..|pre| + i + |t|] == file[i..i + |t|];
    }
  }

  /** With `MINIO_BASE_URL` unset, URLs point at the local storage service. */
  lemma DefaultUrl(info: Listing)
    ensures MatrixOf(info, BaseUrl(map[])).url == "http://localhost:9000/public/" + info.path
  {
  }
}
