/** File selection of `DataAPI`: the `*.h5` overview of a recording folder,
    the data files among them, and the name of the utilisation file that
    belongs to a data file. The directory listing and the set of existing
    paths are inputs; reading the HDF5 files is not modelled. */
module DataApi {
  import opened Wrappers
  import PyStr

  /** An absolute path, split into its parent directory and its file name. */
  datatype FilePath = FilePath(parent: string, name: string)

  /** `str(path)`. */
  function PathString(p: FilePath): string
  {
    p.parent + "/" + p.name
  }

  predicate EndsWith(s: string, suffix: string)
  {
    |suffix| <= |s| && s[|s| - |suffix|..] == suffix
  }

  /** `b` keeps some of `a`'s elements in their order. */
  predicate SubSeq<T(==)>(b: seq<T>, a: seq<T>)
    decreases |a|
  {
    |b| == 0 || (|a| > 0 && if b[0] == a[0] then SubSeq(b[1..], a[1..]) else SubSeq(b, a[1..]))
  }

  /** Adding an element in front of `a` keeps `b` a subsequence. */
  lemma {:induction false} SubSeqSkip<T>(b: seq<T>, a: seq<T>)
    requires |a| > 0 && SubSeq(b, a[1..])
    ensures SubSeq(b, a)
    decreases |a|, |b|
  {
    if |b| > 0 && b[0] == a[0] {
      SubSeqDrop(b, a[1..]);
    }
  }

  /** Dropping the first element of `b` keeps it a subsequence. */
  lemma {:induction false} SubSeqDrop<T>(b: seq<T>, a: seq<T>)
    requires |b| > 0 && SubSeq(b, a)
    ensures SubSeq(b[1..], a)
    decreases |a|, |b|
  {
    if b[0] == a[0] {
      if |b| > 1 {
        SubSeqSkip(b[1..], a);
      }
    } else {
      SubSeqDrop(b, a[1..]);
      if |b| > 1 {
        SubSeqSkip(b[1..], a);
      }
    }
  }

  /** `path.glob("*.h5")` on a listing of names, made absolute under `dir`. */
  function GlobH5(dir: string, listing: seq<string>): (r: seq<FilePath>)
    ensures forall p :: p in r <==> p.parent == dir && p.name in listing && EndsWith(p.name, ".h5")
    decreases |listing|
  {
    if |listing| == 0 then []
    else
      var rest := GlobH5(dir, listing[1..]);
      assert forall n :: n in listing <==> n == listing[0] || n in listing[1..];
      if EndsWith(listing[0], ".h5") then [FilePath(dir, listing[0])] + rest else rest
  }

  /** The state `DataAPI.__init__` leaves: the overview and the two prefixes. */
  datatype DataApi = DataApi(overview: seq<FilePath>, prefixData: string, prefixUtil: string)

  function NewDataApi(dir: string, listing: seq<string>, dataPrefix: string, utilPrefix: string): (r: DataApi)
    ensures forall p :: p in r.overview ==> EndsWith(p.name, ".h5") && p.parent == dir
  {
    DataApi(GlobH5(dir, listing), dataPrefix, utilPrefix)
  }

  /** The files of `files` whose names contain `prefix`, in order. */
  function WithPrefix(files: seq<FilePath>, prefix: string): (r: seq<FilePath>)
    decreases |files|
  {
    if |files| == 0 then []
    else if PyStr.Contains(files[0].name, prefix) then [files[0]] + WithPrefix(files[1..], prefix)
    else WithPrefix(files[1..], prefix)
  }

  /** `get_overview_data`. */
  function GetOverviewData(api: DataApi): (r: seq<FilePath>)
  {
    WithPrefix(api.overview, api.prefixData)
  }

  /** The data files are exactly the overview entries whose names contain the
      data prefix, in their overview order. */
  lemma {:induction false} WithPrefixSpec(files: seq<FilePath>, prefix: string)
    ensures forall p :: p in WithPrefix(files, prefix) <==> p in files && PyStr.Contains(p.name, prefix)
    ensures SubSeq(WithPrefix(files, prefix), files)
    decreases |files|
  {
    if |files| > 0 {
      WithPrefixSpec(files[1..], prefix);
      assert forall p :: p in files <==> p == files[0] || p in files[1..];
      if !PyStr.Contains(files[0].name, prefix) {
        SubSeqSkip(WithPrefix(files, prefix), files);
      } else {
        var r := WithPrefix(files, prefix);
        assert r[1..] == WithPrefix(files[1..], prefix);
      }
    }
  }

  /** `get_file_name_data(n)`: the n-th data file (negative n from the end). */
  function GetFileNameData(api: DataApi, n: int): (r: Result<string>)
    ensures var d := GetOverviewData(api);
            (r.Ok? <==> -|d| <= n < |d|)
            && (r.Err? ==> r.error == IndexError)
            && (0 <= n < |d| ==> r == Ok(PathString(d[n])))
            && (-|d| <= n < 0 ==> r == Ok(PathString(d[|d| + n])))
  {
    match PyStr.PyIndex(GetOverviewData(api), n)
    case Err(e) => Err(e)
    case Ok(f) => Ok(PathString(f))
  }

  /** The utilisation file that belongs to a data file. */
  function UtilPath(api: DataApi, file: FilePath): FilePath
  {
    FilePath(file.parent, PyStr.Replace(file.name, api.prefixData, api.prefixUtil))
  }

  /** `get_file_name_util(n)`. */
  function GetFileNameUtil(api: DataApi, n: int): (r: Result<string>)
    ensures r.Ok? <==> GetFileNameData(api, n).Ok?
    ensures r.Err? ==> r.error == IndexError
    ensures var d := GetOverviewData(api);
            (0 <= n < |d| ==> r == Ok(PathString(UtilPath(api, d[n]))))
            && (-|d| <= n < 0 ==> r == Ok(PathString(UtilPath(api, d[|d| + n]))))
  {
    match PyStr.PyIndex(GetOverviewData(api), n)
    case Err(e) => Err(e)
    case Ok(f) => Ok(PathString(UtilPath(api, f)))
  }

  /** A name made of the data prefix and a tail without it gets the util prefix
      and keeps its tail and its folder. */
  lemma UtilPathOfPrefixed(api: DataApi, parent: string, tail: string)
    requires |api.prefixData| > 0 && api.prefixData[0] !in tail
    ensures UtilPath(api, FilePath(parent, api.prefixData + tail)) == FilePath(parent, api.prefixUtil + tail)
  {
    PyStr.ReplaceAtFront(tail, api.prefixData, api.prefixUtil);
    PyStr.ReplaceAbsent(tail, api.prefixData, api.prefixUtil);
  }

  /** The existence check of `read_utilization_file(n)`: the path that is read,
      AttributeError when it does not exist, IndexError for a bad n. */
  function ReadUtilizationFile(api: DataApi, n: int, existing: set<string>): (r: Result<string>)
    ensures r.Ok? <==> GetFileNameUtil(api, n).Ok? && GetFileNameUtil(api, n).value in existing
    ensures r.Ok? ==> r == GetFileNameUtil(api, n)
    ensures r.Err? && GetFileNameUtil(api, n).Ok? ==> r.error == AttributeError
  {
    match GetFileNameUtil(api, n)
    case Err(e) => Err(e)
    case Ok(file) => if file in existing then Ok(file) else Err(AttributeError)
  }
}
