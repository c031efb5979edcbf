/** Deriving the trace session directory from the sqlite3 database file name:
    the database lives in the session directory, so the directory is the file
    name up to (and not including) its last backslash.

    The file name is a NUL-terminated C string; its length is taken as a
    USHORT, and the scan starts at that (possibly truncated) length and walks
    backwards until it meets a backslash. Nothing stops the walk at the start
    of the buffer, so the scan is only defined for names that have a
    backslash at or before the starting index. */
module SessionDirectory {
  import opened WinTypes

  /** The characters of a NUL-terminated string, without the terminator. */
  type CString = s: seq<char> | forall i :: 0 <= i < |s| ==> s[i] != '\0'

  /** The STRING structure: a counted string over a character buffer. */
  datatype CountedString = CountedString(length: uint16, maximumLength: uint16, buffer: seq<char>)

  /** The character at index `k` of the terminated buffer (the NUL at `|s|`). */
  function CharAt(s: CString, k: nat): (c: char)
    requires k <= |s|
    ensures c == '\\' ==> k < |s| && s[k] == '\\'
  {
    if k == |s| then '\0' else s[k]
  }

  /** `(USHORT)strlen(s)` */
  function Length16(s: CString): (n: uint16)
    ensures n <= |s|
    ensures |s| < TWO_16 ==> n == |s|
  {
    ToUint16(|s|)
  }

  /** The backwards walk from index `Length16(s)` meets a backslash inside the buffer. */
  predicate ScanDefined(s: CString) {
    exists k :: 0 <= k <= Length16(s) && k < |s| && s[k] == '\\'
  }

  /** The index of the last backslash at or before `from`. */
  function LastBackslashFrom(s: seq<char>, from: nat): (k: nat)
    requires from < |s|
    requires exists j :: 0 <= j <= from && s[j] == '\\'
    ensures k <= from && s[k] == '\\'
    ensures forall j :: k < j <= from ==> s[j] != '\\'
    decreases from
  {
    if s[from] == '\\' then from
    else
      assert exists j :: 0 <= j <= from - 1 && s[j] == '\\';
      LastBackslashFrom(s, from - 1)
  }

  /** The length of the derived directory: the index of the last backslash
      the backwards walk from `Length16(s)` reaches. */
  function DirectoryLength(s: CString): (k: nat)
    requires ScanDefined(s)
    ensures k < |s| && k <= Length16(s) && s[k] == '\\'
    ensures forall j :: k < j <= Length16(s) && j < |s| ==> s[j] != '\\'
  {
    var start := if Length16(s) < |s| then Length16(s) as nat else |s| - 1;
    LastBackslashFrom(s, start)
  }

  /** The characters of a counted string. */
  function Text(str: CountedString): seq<char>
    requires str.length <= |str.buffer|
  {
    str.buffer[..str.length]
  }

  /** Lines 199-215: walk back from the end of the database file name to the
      last backslash and describe the prefix before it as a STRING over the
      same buffer. */
  method DeriveSessionDirectory(databaseFilename: CString) returns (filename: CountedString)
    requires ScanDefined(databaseFilename)
    ensures filename.buffer == databaseFilename
    ensures filename.length as nat == DirectoryLength(databaseFilename)
    ensures filename.length < |databaseFilename| && databaseFilename[filename.length] == '\\'
    ensures forall j :: filename.length < j <= Length16(databaseFilename) && j < |databaseFilename| ==>
                          databaseFilename[j] != '\\'
    ensures filename.maximumLength == ToUint16(filename.length + 1)
  {
    var length := Length16(databaseFilename);
    var count: uint16 := 0;
    var cursor: nat := length;  // `Char`, as an index into the buffer
    while CharAt(databaseFilename, cursor) != '\\'
      invariant cursor <= length && cursor + count == length
      invariant forall j :: cursor < j <= length && j < |databaseFilename| ==> databaseFilename[j] != '\\'
      invariant exists k :: 0 <= k <= cursor && k < |databaseFilename| && databaseFilename[k] == '\\'
      decreases cursor
    {
      cursor := cursor - 1;
      count := count + 1;
    }
    var directoryLength: uint16 := length - count;
    filename := CountedString(directoryLength, ToUint16(directoryLength + 1), databaseFilename);
  }

  /** The derivation inverts joining a directory and a file name with a
      backslash, for a file name without backslashes and a short enough path:
      the derived text is the directory, and its maximum length has room for
      one more character. */
  lemma DirectoryOfJoinedPath(directory: CString, name: CString)
    requires forall i :: 0 <= i < |name| ==> name[i] != '\\'
    requires |directory| + 1 + |name| < TWO_16
    ensures var path: CString := directory + ['\\'] + name;
      ScanDefined(path) && DirectoryLength(path) == |directory| && path[..DirectoryLength(path)] == directory
  {
    var path: CString := directory + ['\\'] + name;
    assert path[|directory|] == '\\';
    assert ScanDefined(path);
    assert forall j :: |directory| < j < |path| ==> path[j] == name[j - |directory| - 1];
  }
}
