/**
 * RasterImporter::LoadFiles: the SRTM ".hgt" file-name check made before any
 * raster is read. Reading itself goes through GDAL and is not part of this
 * model: the errors it reports are a parameter, and the model records
 * whether the read happened and whether the level's CRS was reset.
 */
module RasterImporter {
  import opened Common

  const HgtExtension: string := ".hgt"

  const NamingError: string := "Open hgt file failed because filename is invalid!\nPlease refer to https://jorop.github.io/landscaping-docs/#/get-data?id=raster-data for valid hgt file naming."

  const ReadError: string := "A problem has occurred.\nThere is an additional action required.\n\nSee Ouput Log for details."

  predicate IsSeparator(c: char)
  {
    c == '/' || c == '\\'
  }

  /** FPaths::GetCleanFilename: the part of the path after its last slash or backslash. */
  function CleanFilename(path: string): (name: string)
    ensures |name| <= |path| && name == path[|path| - |name|..]
    ensures forall i :: 0 <= i < |name| ==> !IsSeparator(name[i])
    ensures |name| < |path| ==> IsSeparator(path[|path| - |name| - 1])
  {
    if path == [] then []
    else if IsSeparator(path[|path| - 1]) then []
    else CleanFilename(path[..|path| - 1]) + [path[|path| - 1]]
  }

  /** FString::EndsWith(".hgt"), which ignores case by default. */
  predicate IsHgt(filename: string)
  {
    |filename| >= |HgtExtension| && EqualsIgnoreCase(filename[|filename| - |HgtExtension|..], HgtExtension)
  }

  /** The SRTM tile name shape: at least 11 characters, N/S first, E/W fourth, a dot eighth ("N47E011.hgt"). */
  predicate ValidHgtName(name: string)
  {
    |name| >= 11 && (name[0] == 'N' || name[0] == 'S') && (name[3] == 'E' || name[3] == 'W') && name[7] == '.'
  }

  /** The loop over the file names: true when no .hgt file has an invalid clean name. */
  predicate NamesPass(filenames: seq<string>)
  {
    filenames == [] ||
    ((!IsHgt(filenames[0]) || ValidHgtName(CleanFilename(filenames[0]))) && NamesPass(filenames[1..]))
  }

  /** The check passes iff every file that ends in .hgt has a valid name; other files are not looked at. */
  lemma {:induction false} NamesPassIff(filenames: seq<string>)
    ensures NamesPass(filenames) <==>
      forall i :: 0 <= i < |filenames| && IsHgt(filenames[i]) ==> ValidHgtName(CleanFilename(filenames[i]))
  {
    if filenames != [] {
      NamesPassIff(filenames[1..]);
      assert forall i :: 1 <= i < |filenames| ==> filenames[1..][i - 1] == filenames[i];
    }
  }

  /** What LoadFiles did: the message it returned, whether it read the files and whether it reset the CRS. */
  datatype LoadResult = LoadResult(message: string, readFiles: bool, resetCrs: bool)

  /**
   * LoadFiles. `readErrors` are the messages the tile factory's ReadFiles
   * would report for these files.
   */
  function LoadFiles(filenames: seq<string>, readErrors: seq<string>): (r: LoadResult)
    ensures filenames == [] ==> r == LoadResult("", false, false)
    ensures (filenames != [] && exists i :: 0 <= i < |filenames| && IsHgt(filenames[i]) && !ValidHgtName(CleanFilename(filenames[i])))
      ==> r == LoadResult(NamingError, false, false)
    ensures (filenames != [] && forall i :: 0 <= i < |filenames| && IsHgt(filenames[i]) ==> ValidHgtName(CleanFilename(filenames[i])))
      ==> r.readFiles && (r.resetCrs <==> readErrors != []) && r.message == (if readErrors == [] then "" else ReadError)
  {
    NamesPassIff(filenames);
    if filenames == [] then LoadResult("", false, false)
    else if !NamesPass(filenames) then LoadResult(NamingError, false, false)
    else if readErrors != [] then LoadResult(ReadError, true, true)
    else LoadResult("", true, false)
  }

  /** A file that is not .hgt is never rejected by its name. */
  lemma OtherFilesSkipCheck(filenames: seq<string>, readErrors: seq<string>)
    requires filenames != []
    requires forall i :: 0 <= i < |filenames| ==> !IsHgt(filenames[i])
    ensures LoadFiles(filenames, readErrors).readFiles
    ensures LoadFiles(filenames, readErrors).message != NamingError
  {
    assert NamingError != ReadError && NamingError != "";
  }

  /** SRTM names as the check sees them. */
  lemma HgtNameExamples()
    ensures ValidHgtName("N47E011.hgt")
    ensures ValidHgtName("S12W077.hgt")
    ensures !ValidHgtName("N47E11.hgt")
    ensures !ValidHgtName("X47E011.hgt")
  {
  }

  /** The clean name of "dir/name" is name, whatever the directory. */
  lemma {:induction false} CleanFilenameOfPath(dir: string, sep: char, name: string)
    requires IsSeparator(sep)
    requires forall i :: 0 <= i < |name| ==> !IsSeparator(name[i])
    ensures CleanFilename(dir + [sep] + name) == name
  {
    var p := dir + [sep] + name;
    if name == [] {
      assert p[|p| - 1] == sep;
    } else {
      var n := |name| - 1;
      assert p[..|p| - 1] == dir + [sep] + name[..n];
      CleanFilenameOfPath(dir, sep, name[..n]);
      assert name == name[..n] + [name[n]];
    }
  }
}
