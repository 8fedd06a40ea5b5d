/** File filtering: `fileIsUsable` and `filterFiles`. */
module Files {
  import opened Wrappers
  import opened Decimal

  /** One entry of an item's metadata file listing. The declared size is a string, or absent. */
  datatype File = File(name: string, size: Option<string>, format: string)

  /** The caller's filter options: an optional extension allow-list, `minimumSize` (default 0)
      and an optional `maximumSize` (absent is `undefined`, for which `isNaN` holds). */
  datatype FileFilter = FileFilter(fileExtensions: Option<seq<string>>, minimumSize: int, maximumSize: Option<int>)

  /** `s.endsWith(suffix)`. */
  predicate EndsWith(s: string, suffix: string) {
    |suffix| <= |s| && s[|s| - |suffix|..] == suffix
  }

  /** `fileExtensions.some(fileEndsWithExtension)`. */
  function SomeExtension(name: string, exts: seq<string>): (b: bool)
    ensures b <==> exists i :: 0 <= i < |exts| && EndsWith(name, exts[i])
  {
    if exts == [] then false
    else if EndsWith(name, exts[0]) then true
    else
      var b := SomeExtension(name, exts[1..]);
      assert b <==> exists i :: 1 <= i < |exts| && EndsWith(name, exts[i]) by {
        forall i | 1 <= i < |exts| ensures exts[i] == exts[1..][i - 1] { }
        if b {
          var j :| 0 <= j < |exts| - 1 && EndsWith(name, exts[1..][j]);
          assert EndsWith(name, exts[j + 1]);
        }
      }
      b
  }

  /** `fileIsUsable(file)`. A size that is not numeric (NaN) fails neither comparison. */
  predicate FileIsUsable(filter: FileFilter, file: File) {
    var size := ToNumber(file.size);
    if filter.fileExtensions.Some? && !SomeExtension(file.name, filter.fileExtensions.value) then false
    else if filter.minimumSize > 0 && size.Some? && size.value < filter.minimumSize then false
    else if filter.maximumSize.Some? && size.Some? && size.value > filter.maximumSize.value then false
    else true
  }

  /** A file is usable exactly when: with an extension list, its name ends with one of the listed
      extensions; with a positive minimum and a numeric size, the size is at least the minimum;
      with a maximum and a numeric size, the size is at most the maximum. Both bounds are inclusive. */
  lemma FileIsUsableMeaning(filter: FileFilter, file: File)
    ensures FileIsUsable(filter, file) <==>
      (filter.fileExtensions.Some? ==>
         exists i :: 0 <= i < |filter.fileExtensions.value| && EndsWith(file.name, filter.fileExtensions.value[i]))
      && (filter.minimumSize > 0 && ToNumber(file.size).Some? ==> ToNumber(file.size).value >= filter.minimumSize)
      && (filter.maximumSize.Some? && ToNumber(file.size).Some? ==> ToNumber(file.size).value <= filter.maximumSize.value)
  {
  }

  /** Without an extension list, the name plays no part. */
  lemma NameIrrelevantWithoutExtensions(filter: FileFilter, file: File, otherName: string)
    requires filter.fileExtensions.None?
    ensures FileIsUsable(filter, file) == FileIsUsable(filter, file.(name := otherName))
  {
  }

  /** A present but empty extension list rejects every file. */
  lemma EmptyExtensionListRejects(filter: FileFilter, file: File)
    requires filter.fileExtensions == Some([])
    ensures !FileIsUsable(filter, file)
  {
  }

  /** `compact(files).filter(fileIsUsable)`: the usable files, `null` entries dropped. Each
      usable file occurs as often as it does in the listing, and nothing else occurs. */
  function UsableFiles(filter: FileFilter, files: seq<Option<File>>): (r: seq<File>)
    ensures forall i :: 0 <= i < |r| ==> FileIsUsable(filter, r[i])
    ensures forall f :: multiset(r)[f] == if FileIsUsable(filter, f) then multiset(files)[Some(f)] else 0
  {
    if files == [] then []
    else
      var rest := UsableFiles(filter, files[1..]);
      assert files == [files[0]] + files[1..];
      if files[0].Some? && FileIsUsable(filter, files[0].value) then [files[0].value] + rest else rest
  }

  /** xs is ys with some entries dropped and the rest unwrapped, in the same order. */
  predicate Embeds(xs: seq<File>, ys: seq<Option<File>>)
    decreases |ys|
  {
    if xs == [] then true
    else if ys == [] then false
    else (ys[0] == Some(xs[0]) && Embeds(xs[1..], ys[1..])) || Embeds(xs, ys[1..])
  }

  /** The usable files keep the order of the listing. */
  lemma {:induction false} UsableFilesInOrder(filter: FileFilter, files: seq<Option<File>>)
    ensures Embeds(UsableFiles(filter, files), files)
  {
    if files != [] {
      UsableFilesInOrder(filter, files[1..]);
      var r := UsableFiles(filter, files);
      var rest := UsableFiles(filter, files[1..]);
      if files[0].Some? && FileIsUsable(filter, files[0].value) {
        assert r[1..] == rest;
      } else if r != [] {
        assert r == rest;
      }
    }
  }

  lemma UsableFilesEmpty(filter: FileFilter, files: seq<Option<File>>)
    ensures |UsableFiles(filter, files)| == 0 <==>
      forall i :: 0 <= i < |files| && files[i].Some? ==> !FileIsUsable(filter, files[i].value)
  {
    var r := UsableFiles(filter, files);
    if |r| == 0 {
      forall i | 0 <= i < |files| && files[i].Some? ensures !FileIsUsable(filter, files[i].value) {
        assert files[i] in multiset(files);
        assert multiset(r)[files[i].value] == 0;
      }
    } else {
      assert r[0] in multiset(r);
      assert Some(r[0]) in multiset(files);
      var i :| 0 <= i < |files| && files[i] == Some(r[0]);
    }
  }

  /** `filterFiles({files, item}, done)`: the usable files, or the error naming the item when
      there are none. */
  function FilterFiles(files: seq<Option<File>>, identifier: string, filter: FileFilter): (r: Result<seq<File>>)
    ensures r.Err? <==> forall i :: 0 <= i < |files| && files[i].Some? ==> !FileIsUsable(filter, files[i].value)
    ensures r.Err? ==> r.error == "No usable files found for " + identifier + "."
    ensures r.Ok? ==> |r.value| > 0 && r.value == UsableFiles(filter, files)
  {
    UsableFilesEmpty(filter, files);
    var usable := UsableFiles(filter, files);
    if |usable| < 1 then Err("No usable files found for " + identifier + ".") else Ok(usable)
  }
}
