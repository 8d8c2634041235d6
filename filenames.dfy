/** The names of the per-symbol CSV files written by `convert_to_csv`
    (data_operations.py and the object-frame handler's copy of it):
    `re.sub(r'[<>:"/\\|?*]', '_', symbol)`, then `f"{safe}_data.csv"`,
    joined onto the save directory with `os.path.join`. */
module FileNames {

  /** The nine characters of the regular expression's character class. */
  const Forbidden: set<char> := {'<', '>', ':', '"', '/', '\\', '|', '?', '*'}

  const Suffix: string := "_data.csv"

  const DefaultSavePath: string := "./crypto_data"

  function SafeChar(c: char): char {
    if c in Forbidden then '_' else c
  }

  /** The substitution, applied left to right to every character. */
  function Sanitize(symbol: string): (safe: string)
    ensures |safe| == |symbol|
    ensures forall i :: 0 <= i < |safe| ==> safe[i] !in Forbidden
    ensures forall i :: 0 <= i < |safe| ==> (symbol[i] in Forbidden ==> safe[i] == '_')
    ensures forall i :: 0 <= i < |safe| ==> (symbol[i] !in Forbidden ==> safe[i] == symbol[i])
    decreases |symbol|
  {
    if symbol == [] then [] else [SafeChar(symbol[0])] + Sanitize(symbol[1..])
  }

  /** Sanitising a sanitised name changes nothing. */
  lemma SanitizeIdempotent(symbol: string)
    ensures Sanitize(Sanitize(symbol)) == Sanitize(symbol)
  {
  }

  /** A name without forbidden characters is its own sanitised form. */
  lemma SanitizeKeepsSafeNames(symbol: string)
    requires forall i :: 0 <= i < |symbol| ==> symbol[i] !in Forbidden
    ensures Sanitize(symbol) == symbol
  {
  }

  /** Two different symbols can share a file: "XBT/USD" and "XBT:USD" are both
      written to "XBT_USD_data.csv", the second overwriting the first. */
  lemma SanitizeNotInjective()
    ensures Sanitize("XBT/USD") == Sanitize("XBT:USD") == "XBT_USD"
  {
    SanitizeCharByChar("XBT/USD", "XBT_USD");
    SanitizeCharByChar("XBT:USD", "XBT_USD");
  }

  /** The sanitised name is fixed character by character. */
  lemma SanitizeCharByChar(symbol: string, safe: string)
    requires |safe| == |symbol|
    requires forall i :: 0 <= i < |symbol| ==> safe[i] == SafeChar(symbol[i])
    ensures Sanitize(symbol) == safe
  {
  }

  /** `f"{safe_symbol}_data.csv"`. */
  function FileName(symbol: string): (name: string)
    ensures |name| == |symbol| + |Suffix|
    ensures name[..|symbol|] == Sanitize(symbol) && name[|symbol|..] == Suffix
    ensures forall i :: 0 <= i < |name| ==> name[i] !in Forbidden
  {
    var safe := Sanitize(symbol);
    assert forall i :: 0 <= i < |Suffix| ==> Suffix[i] !in Forbidden;
    safe + Suffix
  }

  /** `os.path.join(directory, name)` on POSIX: an absolute name replaces the
      directory; otherwise a '/' is inserted unless the directory is empty or
      already ends with one. */
  function Join(directory: string, name: string): string {
    if name != [] && name[0] == '/' then name
    else if directory == [] || directory[|directory| - 1] == '/' then directory + name
    else directory + "/" + name
  }

  /** `file_path` in `convert_to_csv`. */
  function FilePath(symbol: string, directory: string := DefaultSavePath): string {
    Join(directory, FileName(symbol))
  }

  /** The file always lands directly inside the save directory: its name never
      starts with '/', so `os.path.join` never discards the directory, and the
      last path component is exactly the file name. */
  lemma FilePathStaysInDirectory(directory: string, symbol: string)
    requires directory != []
    ensures exists sep :: sep in {"", "/"} &&
                          FilePath(symbol, directory) == directory + sep + FileName(symbol)
    ensures '/' !in FileName(symbol)
  {
    var name := FileName(symbol);
    assert name[0] != '/';
    if directory[|directory| - 1] == '/' {
      assert FilePath(symbol, directory) == directory + "" + name;
    } else {
      assert FilePath(symbol, directory) == directory + "/" + name;
    }
  }

  /** Without a save path the files go to `./crypto_data/<symbol>_data.csv`. */
  lemma DefaultFilePath(symbol: string)
    ensures FilePath(symbol) == "./crypto_data/" + FileName(symbol)
  {
    var name := FileName(symbol);
    assert name[0] != '/';
    assert DefaultSavePath[|DefaultSavePath| - 1] != '/';
  }
}
