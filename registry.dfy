/**
 * The artifact registry (trainer/src/registry.py): version names derived from
 * the UTC clock, promotion of one artifact to `model_latest.pth`, and the
 * sorted listing of the `.pth` files in the models directory.
 *
 * The file system is a map from full path to contents. Only regular files are
 * modelled; `os.listdir` of the models directory is given as a sequence whose
 * elements are the names of the direct entries of that directory.
 */
module Registry {
  import opened Common
  import opened Strings

  const ModelsDir := "/models"
  const DirPrefix := ModelsDir + "/"
  const LatestName := "model_latest.pth"
  const PthSuffix := ".pth"
  const VersionPrefix := "model_v"

  /** `os.path.join(dir, name)` for a relative `name`. */
  function Join(dir: string, name: string): string {
    dir + "/" + name
  }

  /** The promoted copy, `/models/model_latest.pth`. */
  const Latest := Join(ModelsDir, LatestName)

  /** A reading of `datetime.utcnow()`, to the second. */
  datatype DateTime = DateTime(year: int, month: int, day: int, hour: int, minute: int, second: int)

  /**
   * The field ranges of a clock reading. Years before 1000 are excluded:
   * `%Y` does not pad them the same way on every platform.
   */
  predicate ValidDateTime(t: DateTime) {
    && 1000 <= t.year <= 9999
    && 1 <= t.month <= 12
    && 1 <= t.day <= 31
    && 0 <= t.hour < 24
    && 0 <= t.minute < 60
    && 0 <= t.second < 60
  }

  /** Chronological order of two readings: field by field, most significant first. */
  predicate Earlier(a: DateTime, b: DateTime) {
    a.year < b.year || (a.year == b.year &&
    (a.month < b.month || (a.month == b.month &&
    (a.day < b.day || (a.day == b.day &&
    (a.hour < b.hour || (a.hour == b.hour &&
    (a.minute < b.minute || (a.minute == b.minute &&
    a.second < b.second)))))))))
  }

  /** `strftime("%Y%m%d_%H%M%S")` */
  function Timestamp(t: DateTime): (s: string)
    requires ValidDateTime(t)
    ensures |s| == 15 && s[8] == '_'
    ensures forall i :: 0 <= i < |s| && i != 8 ==> IsDigit(s[i])
  {
    Digits(t.year, 4) + (Digits(t.month, 2) + (Digits(t.day, 2) +
    ("_" + (Digits(t.hour, 2) + (Digits(t.minute, 2) + Digits(t.second, 2))))))
  }

  /** `f"model_v{ts}.pth"` */
  function VersionName(t: DateTime): (name: string)
    requires ValidDateTime(t)
    ensures |name| == 26 && StartsWith(name, VersionPrefix) && EndsWith(name, PthSuffix)
    ensures forall i :: 0 <= i < |name| ==> name[i] != '/'
    ensures name != LatestName
  {
    var name := VersionPrefix + (Timestamp(t) + PthSuffix);
    assert forall i :: 7 <= i < 22 ==> name[i] == Timestamp(t)[i - 7];
    name
  }

  /**
   * `save_model_state`: the path the caller is to write the weights to and
   * the version name. No file is written and the directory is not read:
   * it is a function of the clock reading alone.
   */
  function SaveModelState(now: DateTime): (r: (string, string))
    requires ValidDateTime(now)
    ensures r.1 == VersionName(now)
    ensures r.0 == Join(ModelsDir, r.1) && r.0 != Latest
  {
    var name := VersionName(now);
    assert |Join(ModelsDir, name)| != |Latest|;
    (Join(ModelsDir, name), name)
  }

  lemma DigitsFieldOrder(n: int, m: int, w: nat)
    requires 0 <= n < Pow10(w) && 0 <= m < Pow10(w)
    ensures LexLess(Digits(n, w), Digits(m, w)) <==> n < m
    ensures Digits(n, w) == Digits(m, w) <==> n == m
  {
    DigitsOrder(n, m, w);
  }

  /**
   * One fixed-width field followed by the rest: string order is the field's
   * numeric order, then the order of the rests.
   */
  lemma FieldThen(n: int, m: int, w: nat, x: string, y: string)
    requires 0 <= n < Pow10(w) && 0 <= m < Pow10(w)
    ensures LexLess(Digits(n, w) + x, Digits(m, w) + y) <==> n < m || (n == m && LexLess(x, y))
    ensures Digits(n, w) + x == Digits(m, w) + y <==> n == m && x == y
  {
    DigitsFieldOrder(n, m, w);
    LexLessAppend(Digits(n, w), Digits(m, w), x, y);
  }

  /** Timestamps compare as strings exactly as the readings compare in time. */
  lemma TimestampOrder(a: DateTime, b: DateTime)
    requires ValidDateTime(a) && ValidDateTime(b)
    ensures LexLess(Timestamp(a), Timestamp(b)) <==> Earlier(a, b)
    ensures Timestamp(a) == Timestamp(b) <==> a == b
  {
    assert Pow10(2) == 100;
    assert Pow10(4) == 10000;
    var mina, minb := Digits(a.minute, 2) + Digits(a.second, 2), Digits(b.minute, 2) + Digits(b.second, 2);
    FieldThen(a.minute, b.minute, 2, Digits(a.second, 2), Digits(b.second, 2));
    DigitsFieldOrder(a.second, b.second, 2);
    var ha, hb := Digits(a.hour, 2) + mina, Digits(b.hour, 2) + minb;
    FieldThen(a.hour, b.hour, 2, mina, minb);
    var ua, ub := "_" + ha, "_" + hb;
    LexLessAppend("_", "_", ha, hb);
    LexLessIrreflexive("_");
    var da, db := Digits(a.day, 2) + ua, Digits(b.day, 2) + ub;
    FieldThen(a.day, b.day, 2, ua, ub);
    var moa, mob := Digits(a.month, 2) + da, Digits(b.month, 2) + db;
    FieldThen(a.month, b.month, 2, da, db);
    FieldThen(a.year, b.year, 4, moa, mob);
  }

  /**
   * Because every field is zero-padded to a fixed width, the string order of
   * two version names is the chronological order of their clock readings,
   * and two readings give the same name only when they are equal.
   */
  lemma VersionOrder(a: DateTime, b: DateTime)
    requires ValidDateTime(a) && ValidDateTime(b)
    ensures LexLess(VersionName(a), VersionName(b)) <==> Earlier(a, b)
    ensures VersionName(a) == VersionName(b) <==> a == b
  {
    TimestampOrder(a, b);
    LexLessAppend(VersionPrefix, VersionPrefix, Timestamp(a) + PthSuffix, Timestamp(b) + PthSuffix);
    LexLessIrreflexive(VersionPrefix);
    LexLessAppend(Timestamp(a), Timestamp(b), PthSuffix, PthSuffix);
    LexLessIrreflexive(PthSuffix);
  }

  /** `str(e)` of the `FileNotFoundError` that copying a missing file raises. */
  function NoSuchFile(path: string): string {
    "[Errno 2] No such file or directory: '" + path + "'"
  }

  /** A path naming a direct entry of the models directory. */
  predicate InModelsDir(p: string) {
    StartsWith(p, DirPrefix) && |p| > |DirPrefix| &&
    forall i :: |DirPrefix| <= i < |p| ==> p[i] != '/'
  }

  /** The names `os.listdir(MODELS_DIR)` reports. */
  function Entries(files: map<string, Bytes>): set<string> {
    set p | p in files && InModelsDir(p) :: p[|DirPrefix|..]
  }

  /** `listing` is one of the orders in which `os.listdir` may report the entries. */
  ghost predicate ListsDir(files: map<string, Bytes>, listing: seq<string>) {
    Distinct(listing) && forall n :: n in listing <==> n in Entries(files)
  }

  /** The names of `listing` that end in `.pth`, in listing order. */
  function PthOnly(listing: seq<string>): (r: seq<string>)
    ensures forall n :: n in r <==> n in listing && EndsWith(n, PthSuffix)
    ensures Distinct(listing) ==> Distinct(r)
  {
    if listing == [] then []
    else if EndsWith(listing[0], PthSuffix) then [listing[0]] + PthOnly(listing[1..])
    else PthOnly(listing[1..])
  }

  /**
   * `list_models`: the `.pth` names among the reported entries, in ascending
   * string order, each as often as it was reported.
   */
  function ListModels(listing: seq<string>): (r: seq<string>)
    ensures Sorted(r)
    ensures forall n :: n in r <==> n in listing && EndsWith(n, PthSuffix)
    ensures multiset(r) == multiset(PthOnly(listing))
  {
    var r := Sort(PthOnly(listing));
    assert forall n :: n in r <==> n in multiset(r);
    r
  }

  /** In a sequence without repetitions every element occurs once. */
  lemma {:induction false} DistinctCountOne(s: seq<string>)
    requires Distinct(s)
    ensures forall x :: multiset(s)[x] <= 1
  {
    if s != [] {
      assert s == [s[0]] + s[1..];
      DistinctTail(s);
      DistinctCountOne(s[1..]);
      assert s[0] !in s[1..];
    }
  }

  /** An element found at two positions occurs at least twice. */
  lemma RepeatCountTwo(s: seq<string>, i: nat, j: nat)
    requires i < j < |s| && s[i] == s[j]
    ensures multiset(s)[s[i]] >= 2
  {
    assert s == s[..j] + s[j..];
    assert s[i] in s[..j];
    assert s[j] == s[j..][0];
  }

  /** Reordering a sequence without repetitions gives one without repetitions. */
  lemma DistinctPermutation(a: seq<string>, b: seq<string>)
    requires Distinct(a) && multiset(a) == multiset(b)
    ensures Distinct(b)
  {
    DistinctCountOne(a);
    forall i, j | 0 <= i < j < |b| ensures b[i] != b[j] {
      if b[i] == b[j] {
        RepeatCountTwo(b, i, j);
      }
    }
  }

  /** Two ascending sequences without repetitions and with the same elements are equal. */
  lemma {:induction false} SortedUnique(a: seq<string>, b: seq<string>)
    requires Sorted(a) && Sorted(b) && Distinct(a)
    requires multiset(a) == multiset(b)
    ensures a == b
    decreases |a|
  {
    if a != [] {
      assert |multiset(b)| == |b| && |multiset(a)| == |a|;
      SortedSameHead(a, b);
      TailPermutation(a, b);
      DistinctTail(a);
      SortedUnique(a[1..], b[1..]);
      assert a == [a[0]] + a[1..] && b == [b[0]] + b[1..];
    }
  }

  /** Two ascending permutations of a sequence without repetitions start alike. */
  lemma SortedSameHead(a: seq<string>, b: seq<string>)
    requires Sorted(a) && Sorted(b) && Distinct(a) && a != [] && b != []
    requires multiset(a) == multiset(b)
    ensures a[0] == b[0]
  {
    assert a[0] in multiset(b) && b[0] in multiset(a);
    if a[0] != b[0] {
      var i :| 0 <= i < |a| && a[i] == b[0];
      var j :| 0 <= j < |b| && b[j] == a[0];
      assert LexLeq(a[0], a[i]) && LexLeq(b[0], b[j]);
      LexLessTransitive(a[0], b[0], a[0]);
      LexLessIrreflexive(a[0]);
    }
  }

  /** Removing equal heads of two permutations leaves permutations. */
  lemma TailPermutation(a: seq<string>, b: seq<string>)
    requires a != [] && b != [] && a[0] == b[0] && multiset(a) == multiset(b)
    ensures multiset(a[1..]) == multiset(b[1..])
  {
    assert a == [a[0]] + a[1..] && b == [b[0]] + b[1..];
    assert multiset(a[1..]) == multiset(a) - multiset{a[0]};
    assert multiset(b[1..]) == multiset(b) - multiset{b[0]};
  }

  lemma DistinctTail(a: seq<string>)
    requires a != [] && Distinct(a)
    ensures Distinct(a[1..])
  {
    forall i, j | 0 <= i < j < |a[1..]| ensures a[1..][i] != a[1..][j] {
      assert a[1..][i] == a[i + 1] && a[1..][j] == a[j + 1];
    }
  }

  /** Two sequences without repetitions and with the same elements are permutations of each other. */
  lemma SameElementsPermutation(a: seq<string>, b: seq<string>)
    requires Distinct(a) && Distinct(b)
    requires forall x :: x in a <==> x in b
    ensures multiset(a) == multiset(b)
  {
    DistinctCountOne(a);
    DistinctCountOne(b);
    forall x ensures multiset(a)[x] == multiset(b)[x] {
      assert x in a <==> x in multiset(a);
      assert x in b <==> x in multiset(b);
    }
  }

  /**
   * Whatever order `os.listdir` reports the entries in, `list_models` gives
   * the same list: exactly the `.pth` entries of the directory, strictly
   * ascending, each once.
   */
  lemma ListModelsOfDir(files: map<string, Bytes>, listing: seq<string>, other: seq<string>)
    requires ListsDir(files, listing) && ListsDir(files, other)
    ensures forall n :: n in ListModels(listing) <==> n in Entries(files) && EndsWith(n, PthSuffix)
    ensures forall i, j :: 0 <= i < j < |ListModels(listing)| ==> LexLess(ListModels(listing)[i], ListModels(listing)[j])
    ensures ListModels(listing) == ListModels(other)
  {
    var r, q := ListModels(listing), ListModels(other);
    DistinctPermutation(PthOnly(listing), r);
    SameElementsPermutation(PthOnly(listing), PthOnly(other));
    SortedDistinctAscending(r);
    SortedUnique(r, q);
  }

  /** The entry name of a path made by `Join(ModelsDir, name)`. */
  lemma JoinInModelsDir(name: string)
    requires |name| > 0 && forall i :: 0 <= i < |name| ==> name[i] != '/'
    ensures Join(ModelsDir, name) == DirPrefix + name
    ensures InModelsDir(Join(ModelsDir, name)) && Join(ModelsDir, name)[|DirPrefix|..] == name
  {
    var p := Join(ModelsDir, name);
    assert p == DirPrefix + name;
    forall i | |DirPrefix| <= i < |p| ensures p[i] != '/' {
      assert p[i] == name[i - |DirPrefix|];
    }
  }

  /** Paths `Join(ModelsDir, name)` with different names are different. */
  lemma JoinInjective(a: string, b: string)
    requires Join(ModelsDir, a) == Join(ModelsDir, b)
    ensures a == b
  {
    assert a == Join(ModelsDir, a)[|DirPrefix|..];
    assert b == Join(ModelsDir, b)[|DirPrefix|..];
  }

  /**
   * Writing a new version file and promoting it adds exactly the version's
   * name and `model_latest.pth` to the directory listing (either may have
   * been there already).
   */
  lemma PromotedEntries(files: map<string, Bytes>, name: string, w: Bytes)
    requires |name| > 0 && forall i :: 0 <= i < |name| ==> name[i] != '/'
    ensures Entries(files[Join(ModelsDir, name) := w][Latest := w]) == Entries(files) + {name, LatestName}
  {
    var nf := files[Join(ModelsDir, name) := w][Latest := w];
    JoinInModelsDir(name);
    JoinInModelsDir(LatestName);
    forall n | n in Entries(nf) ensures n in Entries(files) + {name, LatestName} {
      var p :| p in nf && InModelsDir(p) && p[|DirPrefix|..] == n;
      if p != Latest && p != Join(ModelsDir, name) {
        assert p in files;
      } else if p == Latest {
        assert n == LatestName;
      } else {
        assert n == name;
      }
    }
    forall n | n in Entries(files) + {name, LatestName} ensures n in Entries(nf) {
      if n == name {
        assert Join(ModelsDir, name) in nf;
      } else if n == LatestName {
        assert Latest in nf;
      } else {
        var p :| p in files && InModelsDir(p) && p[|DirPrefix|..] == n;
        assert p in nf;
      }
    }
  }

  /**
   * What `set_latest(path)` does to the files, as a value: the old
   * `model_latest.pth` is removed, then `path` is copied over it; when
   * `path` is missing at that moment the copy, and its retry, raise.
   */
  function Promote(files: map<string, Bytes>, path: string): (r: (Option<string>, map<string, Bytes>))
    ensures path in files && path != Latest ==> r == (None, files[Latest := files[path]])
    ensures path !in files || path == Latest ==> r == (Some(NoSuchFile(path)), files - {Latest})
  {
    var removed := files - {Latest};
    assert path in files && path != Latest ==> removed[Latest := removed[path]] == files[Latest := files[path]];
    if path in removed then (None, removed[Latest := removed[path]])
    else (Some(NoSuchFile(path)), removed)
  }

  /** `set_latest` twice with the same path leaves the files as `set_latest` once. */
  lemma PromoteIdempotent(files: map<string, Bytes>, path: string)
    ensures Promote(Promote(files, path).1, path) == Promote(files, path)
  {
    var once := Promote(files, path).1;
    if path in files && path != Latest {
      assert once - {Latest} == files - {Latest};
    } else {
      assert once - {Latest} == once;
    }
  }

  /** The models directory: the versioned `.pth` artifacts and `model_latest.pth`. */
  class ModelDir {
    var files: map<string, Bytes>

    constructor (initial: map<string, Bytes>)
      ensures files == initial
    {
      files := initial;
    }

    /** `torch.save(..., path)`: the whole artifact under that path. */
    method WriteFile(path: string, contents: Bytes)
      modifies this
      ensures files == old(files)[path := contents]
    {
      files := files[path := contents];
    }

    /** `shutil.copy2(src, dst)`: raises when `src` does not exist. */
    method Copy(src: string, dst: string) returns (error: Option<string>)
      modifies this
      ensures src in old(files) ==> error == None && files == old(files)[dst := old(files)[src]]
      ensures src !in old(files) ==> error == Some(NoSuchFile(src)) && files == old(files)
    {
      if src in files {
        files := files[dst := files[src]];
        error := None;
      } else {
        error := Some(NoSuchFile(src));
      }
    }

    /**
     * `set_latest(path)`. The promotion is not atomic: `between` is the
     * directory after the removal and before the copy, and it has no
     * `model_latest.pth`. A failing copy is retried once (the `except`
     * branch) and the error then propagates, with the old copy already gone.
     * No other file changes.
     */
    method SetLatest(path: string) returns (error: Option<string>, ghost between: map<string, Bytes>)
      modifies this
      ensures between == old(files) - {Latest} && Latest !in between
      ensures (error, files) == Promote(old(files), path)
      ensures error.None? <==> path in old(files) && path != Latest
      ensures error.None? ==> Latest in files && files[Latest] == old(files)[path]
      ensures forall q :: q != Latest ==> (q in files <==> q in old(files))
      ensures forall q :: q != Latest && q in files ==> files[q] == old(files)[q]
    {
      var latest := Latest;
      if latest in files {
        files := files - {latest};
      }
      between := files;
      error := Copy(path, latest);
      if error.Some? {
        error := Copy(path, latest);
      }
    }
  }
}
