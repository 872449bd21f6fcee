/**
 * Where a run writes its logs: the rank-0 logger gate of
 * `create_tensorboard_logger` and the `version_N` numbering of `get_log_dir`.
 * The directory listing and the "is a directory" test are inputs: `None`
 * stands for a listing that failed with `OSError`.
 */
module LogDir {
  import opened Wrappers
  import opened Strings

  /** One entry of the listing of the run directory. */
  datatype Listing = Listing(name: string, isDir: bool)

  /** The logger `create_tensorboard_logger` builds. */
  datatype TensorBoardLogger = TensorBoardLogger(rootDir: string, name: string)

  /** POSIX `os.path.join(a, b)`. */
  function Join(a: string, b: string): string {
    if StartsWith(b, "/") then b
    else if a == [] || a[|a| - 1] == '/' then a + b
    else a + "/" + b
  }

  /** POSIX `os.path.basename(p)`: what follows the last '/'. */
  function Basename(p: string): (r: string)
    ensures '/' !in r
    ensures |r| <= |p| && r == p[|p| - |r|..]
  {
    if p == [] || p[|p| - 1] == '/' then []
    else Basename(p[..|p| - 1]) + [p[|p| - 1]]
  }

  /** The text up to the first occurrence of `c`: `s.split(c)[0]`. */
  function UpTo(s: string, c: char): (r: string)
    ensures c !in r
  {
    if s == [] || s[0] == c then [] else [s[0]] + UpTo(s[1..], c)
  }

  /** `s.replace("/", "")` */
  function RemoveSlashes(s: string): (r: string)
    ensures '/' !in r
  {
    if s == [] then []
    else (if s[0] == '/' then [] else [s[0]]) + RemoveSlashes(s[1..])
  }

  const Prefix: string := "version_"

  /** An entry that counts as an earlier run: a directory whose basename starts with `version_`. */
  predicate IsVersionDir(e: Listing) {
    e.isDir && StartsWith(Basename(e.name), Prefix)
  }

  /**
   * The number of a version directory: the text between the first and the
   * second '_' of its basename, without '/', read by `int()`; `None` where
   * `int()` raises.
   */
  function ParseVersion(e: Listing): Option<int>
    requires IsVersionDir(e)
  {
    var bn := Basename(e.name);
    ParseInt(RemoveSlashes(UpTo(bn[|Prefix|..], '_')))
  }

  /**
   * The versions read from the listing, in listing order, or `None` when one
   * version directory has a number `int()` cannot read.
   */
  function Versions(listing: seq<Listing>): Option<seq<int>>
  {
    if listing == [] then Some([])
    else
      var last := listing[|listing| - 1];
      match Versions(listing[..|listing| - 1])
      case None => None
      case Some(vs) =>
        if !IsVersionDir(last) then Some(vs)
        else match ParseVersion(last)
          case None => None
          case Some(v) => Some(vs + [v])
  }

  function Max(vs: seq<int>): (m: int)
    requires vs != []
    ensures m in vs
    ensures forall i :: 0 <= i < |vs| ==> vs[i] <= m
  {
    if |vs| == 1 then vs[0]
    else
      var rest := Max(vs[1..]);
      if vs[0] > rest then vs[0] else rest
  }

  /** The version of the new run, from the versions already present. */
  function NextVersion(vs: seq<int>): (r: int)
    ensures vs == [] ==> r == 0
    ensures forall i :: 0 <= i < |vs| ==> vs[i] < r
    ensures vs != [] ==> r - 1 in vs
  {
    if vs == [] then 0 else Max(vs) + 1
  }

  /** The directory `get_log_dir` gives a run of version `version`. */
  function VersionDir(saveDir: string, version: int): string {
    Join(saveDir, Prefix + IntToString(version))
  }

  function SaveDir(rootDir: string, runName: string): string {
    Join(Join(Join("logs", "runs"), rootDir), runName)
  }

  /**
   * Version selection of `get_log_dir` on the rank-0 process without a logger:
   * the next version is one past the maximum of the versions found, or 0 when
   * there is none. A listing failure falls back to version 0; an unreadable
   * number raises ValueError.
   */
  method GetLogDir(rootDir: string, runName: string, listing: Option<seq<Listing>>)
    returns (r: Result<string>)
    ensures listing.None? ==> r == Ok(VersionDir(SaveDir(rootDir, runName), 0))
    ensures listing.Some? ==>
      match Versions(listing.value)
      case None => r.Err? && r.error.ValueError?
      case Some(vs) => r == Ok(VersionDir(SaveDir(rootDir, runName), NextVersion(vs)))
  {
    var saveDir := SaveDir(rootDir, runName);
    if listing.None? {
      // OSError: warn and fall back to version 0
      return Ok(VersionDir(saveDir, 0));
    }
    var existing := CollectVersions(listing.value);
    if existing.Err? {
      return Err(existing.error);
    }
    var existingVersions := existing.value;
    var version := if |existingVersions| == 0 then 0 else Max(existingVersions) + 1;
    r := Ok(VersionDir(saveDir, version));
  }

  /**
   * The loop of `get_log_dir`: the numbers of the version directories, in
   * listing order; the first unreadable number raises ValueError.
   */
  method CollectVersions(listdirInfo: seq<Listing>) returns (r: Result<seq<int>>)
    ensures Versions(listdirInfo).None? ==> r.Err? && r.error.ValueError?
    ensures Versions(listdirInfo).Some? ==> r == Ok(Versions(listdirInfo).value)
  {
    var existingVersions: seq<int> := [];
    for i := 0 to |listdirInfo|
      invariant Versions(listdirInfo[..i]) == Some(existingVersions)
    {
      assert listdirInfo[..i + 1][..i] == listdirInfo[..i];
      var d := listdirInfo[i];
      if IsVersionDir(d) {
        var bn := Basename(d.name);
        var dirVer := RemoveSlashes(UpTo(bn[|Prefix|..], '_'));
        var parsed := ParseInt(dirVer);
        assert parsed == ParseVersion(d);
        if parsed.None? {
          PrefixFailurePersists(listdirInfo, i + 1);
          return Err(ValueError("invalid literal for int() with base 10: " + dirVer));
        }
        existingVersions := existingVersions + [parsed.value];
      }
    }
    assert listdirInfo[..|listdirInfo|] == listdirInfo;
    r := Ok(existingVersions);
  }

  /** Once a prefix of the listing holds an unreadable version, the whole listing does. */
  lemma {:induction false} PrefixFailurePersists(listing: seq<Listing>, n: nat)
    requires n <= |listing| && Versions(listing[..n]).None?
    ensures Versions(listing).None?
    decreases |listing| - n
  {
    if n < |listing| {
      assert listing[..n + 1][..n] == listing[..n];
      PrefixFailurePersists(listing, n + 1);
    } else {
      assert listing[..n] == listing;
    }
  }

  /** An entry `get_log_dir` can read: not a version directory, or one whose number `int()` accepts. */
  predicate Readable(e: Listing) {
    IsVersionDir(e) ==> ParseVersion(e).Some?
  }

  /** Reading a listing succeeds when reading all but its last entry does and the last entry is readable. */
  lemma VersionsOfLast(listing: seq<Listing>)
    requires listing != []
    ensures Versions(listing).Some? <==>
      Versions(listing[..|listing| - 1]).Some? && Readable(listing[|listing| - 1])
  {
  }

  /** A successful read of a listing extends the read of all but its last entry by that entry's number, if any. */
  lemma VersionsExtend(listing: seq<Listing>)
    requires listing != [] && Versions(listing).Some?
    ensures var n := |listing| - 1;
      && Versions(listing[..n]).Some?
      && (IsVersionDir(listing[n]) ==> ParseVersion(listing[n]).Some?)
      && Versions(listing).value == Versions(listing[..n]).value
           + (if IsVersionDir(listing[n]) then [ParseVersion(listing[n]).value] else [])
  {
  }

  /** `Versions` succeeds exactly when every version directory has a readable number. */
  lemma {:induction false} VersionsSucceedIff(listing: seq<Listing>)
    ensures Versions(listing).Some? <==> forall j :: 0 <= j < |listing| ==> Readable(listing[j])
  {
    if listing != [] {
      var n := |listing| - 1;
      var init := listing[..n];
      VersionsSucceedIff(init);
      VersionsOfLast(listing);
      if Versions(listing).Some? {
        forall j | 0 <= j < |listing|
          ensures Readable(listing[j])
        {
          if j < n {
            assert init[j] == listing[j];
          }
        }
      } else if Versions(init).Some? {
        assert !Readable(listing[n]);
      } else {
        var j :| 0 <= j < n && !Readable(init[j]);
        assert init[j] == listing[j];
      }
    }
  }

  /** The number of every version directory is among the versions read. */
  lemma {:induction false} VersionsCoverEveryDir(listing: seq<Listing>, j: nat)
    requires Versions(listing).Some?
    requires j < |listing| && IsVersionDir(listing[j])
    ensures ParseVersion(listing[j]).Some?
    ensures ParseVersion(listing[j]).value in Versions(listing).value
  {
    var n := |listing| - 1;
    var init := listing[..n];
    VersionsExtend(listing);
    if j < n {
      assert init[j] == listing[j];
      VersionsCoverEveryDir(init, j);
    }
  }

  /** Every version read comes from a version directory of the listing; files and other names add nothing. */
  lemma {:induction false} VersionSource(listing: seq<Listing>, k: nat) returns (j: nat)
    requires Versions(listing).Some? && k < |Versions(listing).value|
    ensures j < |listing| && IsVersionDir(listing[j])
    ensures ParseVersion(listing[j]) == Some(Versions(listing).value[k])
  {
    var init := listing[..|listing| - 1];
    VersionsExtend(listing);
    var vs := Versions(init).value;
    if k < |vs| {
      j := VersionSource(init, k);
      assert init[j] == listing[j];
    } else {
      j := |listing| - 1;
    }
  }

  /** No version directory at all: nothing is read and the new run is version 0. */
  lemma {:induction false} NoVersionDirsGivesZero(listing: seq<Listing>)
    requires forall j :: 0 <= j < |listing| ==> !IsVersionDir(listing[j])
    ensures Versions(listing) == Some([]) && NextVersion(Versions(listing).value) == 0
  {
    if listing != [] {
      var init := listing[..|listing| - 1];
      assert forall j :: 0 <= j < |init| ==> init[j] == listing[j];
      NoVersionDirsGivesZero(init);
    }
  }

  /** The new version is larger than the number of every version directory in the listing. */
  lemma NewVersionExceedsExisting(listing: seq<Listing>, j: nat)
    requires Versions(listing).Some?
    requires j < |listing| && IsVersionDir(listing[j])
    ensures ParseVersion(listing[j]).Some?
    ensures ParseVersion(listing[j]).value < NextVersion(Versions(listing).value)
  {
    VersionsCoverEveryDir(listing, j);
  }

  lemma {:induction false} BasenameAfterSlash(p: string, b: string)
    requires p == [] || p[|p| - 1] == '/'
    requires '/' !in b
    ensures Basename(p + b) == b
    decreases |b|
  {
    if b != [] {
      var init := b[..|b| - 1];
      assert (p + b)[..|p + b| - 1] == p + init;
      BasenameAfterSlash(p, init);
      assert b == init + [b[|b| - 1]];
    } else {
      assert p + b == p;
    }
  }

  lemma NoUnderscoreUpTo(s: string)
    requires '_' !in s
    ensures UpTo(s, '_') == s
  {
  }

  lemma NoSlashRemove(s: string)
    requires '/' !in s
    ensures RemoveSlashes(s) == s
  {
  }

  lemma IntToStringPlain(n: int)
    ensures '/' !in IntToString(n) && '_' !in IntToString(n)
  {
    var s := IntToString(n);
    if n < 0 {
      assert s[1..] == NatToString(-n);
      assert forall i :: 1 <= i < |s| ==> IsDigit(s[i]);
    }
  }

  lemma BasenameOfVersionDir(saveDir: string, v: int)
    ensures Basename(VersionDir(saveDir, v)) == Prefix + IntToString(v)
  {
    var tail := Prefix + IntToString(v);
    IntToStringPlain(v);
    assert '/' !in tail by {
      assert forall i :: 0 <= i < |Prefix| ==> Prefix[i] != '/';
      assert forall i :: |Prefix| <= i < |tail| ==> tail[i] == IntToString(v)[i - |Prefix|];
    }
    assert tail[0] == 'v';
    assert !StartsWith(tail, "/");
    if saveDir == [] || saveDir[|saveDir| - 1] == '/' {
      BasenameAfterSlash(saveDir, tail);
    } else {
      assert VersionDir(saveDir, v) == (saveDir + "/") + tail;
      BasenameAfterSlash(saveDir + "/", tail);
    }
  }

  /** The directory made for version v reads back as version v. */
  lemma VersionDirReadsBack(saveDir: string, v: int)
    ensures IsVersionDir(Listing(VersionDir(saveDir, v), true))
    ensures ParseVersion(Listing(VersionDir(saveDir, v), true)) == Some(v)
  {
    BasenameOfVersionDir(saveDir, v);
    var tail := Prefix + IntToString(v);
    assert tail[..|Prefix|] == Prefix;
    assert tail[|Prefix|..] == IntToString(v);
    IntToStringPlain(v);
    NoUnderscoreUpTo(IntToString(v));
    NoSlashRemove(IntToString(v));
    ParseIntOfIntToString(v);
  }

  /**
   * Versions never repeat: once the directory chosen for version v exists, the
   * next run's listing reads v back from it, and that run gets a larger version.
   */
  lemma NextRunGetsLargerVersion(saveDir: string, listing: seq<Listing>, v: int)
    requires Versions(listing).Some?
    ensures var l2 := listing + [Listing(VersionDir(saveDir, v), true)];
      Versions(l2) == Some(Versions(listing).value + [v])
      && NextVersion(Versions(l2).value) > v
  {
    VersionDirReadsBack(saveDir, v);
    var l2 := listing + [Listing(VersionDir(saveDir, v), true)];
    assert l2[..|l2| - 1] == listing;
    var vs2 := Versions(listing).value + [v];
    assert vs2[|vs2| - 1] == v;
  }

  /** `create_tensorboard_logger`: a logger only on rank 0 and only when logging is on. */
  function CreateTensorboardLogger(isGlobalZero: bool, rootDir: string, runName: string, logLevel: int)
    : (r: Option<TensorBoardLogger>)
    ensures r.Some? <==> isGlobalZero && logLevel > 0
    ensures r.Some? ==> r.value.name == runName && r.value.rootDir == Join(Join("logs", "runs"), rootDir)
  {
    if isGlobalZero && logLevel > 0 then Some(TensorBoardLogger(Join(Join("logs", "runs"), rootDir), runName))
    else None
  }
}
