/**
 * The file-suffix classifier (src/file_types.py): a three-member
 * enumeration, a fixed suffix table and a lookup with a default.
 */
module FileTypes {

  /** `FileType`; `auto()` numbers the members 1, 2 and 3 in order. */
  datatype FileType = Python | Json | Other

  /** The value `auto()` gives each member. */
  function Value(t: FileType): (n: int)
    ensures 1 <= n <= 3
  {
    match t
    case Python => 1
    case Json => 2
    case Other => 3
  }

  /** `FILE_MAPPING`: the suffixes the editor knows, with the dot and in lower case. */
  const FileMapping: map<string, FileType> := map[".py" := Python, ".json" := Json, ".txt" := Other]

  /** `get_file_type`: the table entry for the suffix, `Other` for any suffix not in the table. */
  function GetFileType(suffix: string): (r: FileType)
    ensures r == Python <==> suffix == ".py"
    ensures r == Json <==> suffix == ".json"
    ensures r == Other <==> suffix != ".py" && suffix != ".json"
    ensures suffix in FileMapping ==> r == FileMapping[suffix]
  {
    if suffix in FileMapping then FileMapping[suffix] else Other
  }

  /** The three members are distinct, and the table has exactly three entries. */
  lemma {:induction false} TableShape(s: FileType, t: FileType)
    ensures Value(s) == Value(t) ==> s == t
    ensures FileMapping.Keys == {".py", ".json", ".txt"}
    ensures |FileMapping| == 3
  {
    assert FileMapping.Keys == {".py", ".json", ".txt"};
    assert ".py" != ".json" && ".py" != ".txt" && ".json" != ".txt" by {
      assert ".py"[1] != ".json"[1] && ".py"[1] != ".txt"[1] && ".json"[1] != ".txt"[1];
    }
  }

  /** The lookup is exact: a suffix in another case, or the empty suffix, is `Other`. */
  lemma {:induction false} ExactSuffixes()
    ensures GetFileType(".py") == Python && GetFileType(".json") == Json && GetFileType(".txt") == Other
    ensures GetFileType(".PY") == Other && GetFileType("") == Other
  {
    assert ".PY" != ".py" by { assert ".PY"[1] != ".py"[1]; }
    assert ".PY" != ".json" by { assert |".PY"| != |".json"|; }
  }
}
