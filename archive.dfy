/**
 * `create_zip_file`: the list of entries written into the downloadable archive. One
 * `.pas` file per system under `pa/maps/`, in input order, each holding the one-element
 * array `[system]`, then `modinfo.json` and `README.txt`. Compression and JSON text are
 * not modelled: an entry is its path and the value that would be serialised into it.
 */
module Archive {
  import opened Wrappers
  import opened Decimal
  import opened Sanitize
  import opened Generator

  /** The fields of the server-mod metadata file. */
  datatype ModInfo = ModInfo(
    context: string,
    identifier: string,
    displayName: string,
    description: string,
    author: string,
    version: string,
    priority: int)

  const GeneratedMapsModInfo := ModInfo(
    "server", "generated_maps", "Generated Maps",
    "Custom systems generated by Streamlit tool", "PA Titans Community", "1.0", 100)

  /** What an archive entry holds, before JSON encoding. */
  datatype Content =
    | SystemArray(systems: seq<System>)  // a `.pas` file: a JSON array of systems
    | ModInfoJson(info: ModInfo)
    | ReadmeText                         // the fixed installation instructions

  datatype Entry = Entry(path: string, content: Content)

  const MapsDir := "pa/maps/"
  const ModInfoEntry := Entry("modinfo.json", ModInfoJson(GeneratedMapsModInfo))
  const ReadmeEntry := Entry("README.txt", ReadmeText)

  /** `system.get("name", f"system_{i+1}")`. */
  function FileStem(system: System, i: nat): string {
    match system.name
    case Some(n) => n
    case None => "system_" + DecimalString(i + 1)
  }

  /** The archive path of the i-th system (counting from 0). */
  function SystemPath(system: System, i: nat): string {
    MapsDir + SanitizeFilename(FileStem(system, i)) + "_" + DecimalString(i + 1) + ".pas"
  }

  /** A zip archive being written: the entries `writestr` has stored so far, in order. */
  class ZipWriter {
    var entries: seq<Entry>

    constructor ()
      ensures entries == []
    {
      entries := [];
    }

    /** `ZipFile.writestr`: append one entry. */
    method WriteStr(path: string, content: Content)
      modifies this
      ensures entries == old(entries) + [Entry(path, content)]
    {
      entries := entries + [Entry(path, content)];
    }
  }

  /**
   * `create_zip_file(systems)`: the entries of the archive, in the order they are written.
   * No two entries share a path.
   */
  method CreateZipFile(systems: seq<System>) returns (entries: seq<Entry>)
    ensures |entries| == |systems| + 2
    ensures forall i :: 0 <= i < |systems| ==>
      entries[i] == Entry(SystemPath(systems[i], i), SystemArray([systems[i]]))
    ensures entries[|systems|] == ModInfoEntry
    ensures entries[|systems| + 1] == ReadmeEntry
    ensures forall i, j :: 0 <= i < j < |entries| ==> entries[i].path != entries[j].path
  {
    var zf := new ZipWriter();
    for i := 0 to |systems|
      invariant |zf.entries| == i
      invariant forall j :: 0 <= j < i ==>
        zf.entries[j] == Entry(SystemPath(systems[j], j), SystemArray([systems[j]]))
    {
      var safeName := SanitizeFilename(FileStem(systems[i], i));
      var filename := safeName + "_" + DecimalString(i + 1) + ".pas";
      zf.WriteStr(MapsDir + filename, SystemArray([systems[i]]));
    }
    zf.WriteStr(ModInfoEntry.path, ModInfoEntry.content);
    zf.WriteStr(ReadmeEntry.path, ReadmeEntry.content);
    entries := zf.entries;
    EntryPathsDistinct(systems, entries);
  }

  /** An entry list of the archive's shape has no two entries with the same path. */
  lemma EntryPathsDistinct(systems: seq<System>, entries: seq<Entry>)
    requires |entries| == |systems| + 2
    requires forall i :: 0 <= i < |systems| ==> entries[i].path == SystemPath(systems[i], i)
    requires entries[|systems|] == ModInfoEntry && entries[|systems| + 1] == ReadmeEntry
    ensures forall i, j :: 0 <= i < j < |entries| ==> entries[i].path != entries[j].path
  {
    ArchivePathsDistinct(systems);
    forall i, j | 0 <= i < j < |entries|
      ensures entries[i].path != entries[j].path
    {
      if j < |systems| {
        assert entries[i].path == SystemPath(systems[i], i);
        assert entries[j].path == SystemPath(systems[j], j);
      } else if i < |systems| {
        assert entries[i].path == SystemPath(systems[i], i);
      } else {
        assert entries[i].path[0] == 'm' && entries[j].path[0] == 'R';
      }
    }
  }

  lemma UnderscoreAt(a: string, d: string)
    ensures (a + "_" + d)[|a|] == '_'
  {
  }

  /** If `a + "_" + d == b + "_" + e` and neither d nor e holds '_', then d == e. */
  lemma SuffixAfterLastUnderscore(a: string, d: string, b: string, e: string)
    requires a + "_" + d == b + "_" + e
    requires AllDigits(d) && AllDigits(e)
    ensures d == e
  {
    var x := a + "_" + d;
    assert x == b + "_" + e;
    if |d| < |e| {
      UnderscoreAt(a, d);
      assert false;
    } else if |e| < |d| {
      UnderscoreAt(b, e);
      assert false;
    }
    assert d == x[|x| - |d|..];
    assert e == x[|x| - |e|..];
  }

  /** Two system entries share a path only if they have the same index. */
  lemma SystemPathInjective(s: System, i: nat, t: System, j: nat)
    ensures SystemPath(s, i) == SystemPath(t, j) ==> i == j
  {
    if SystemPath(s, i) == SystemPath(t, j) {
      var a, b := SanitizeFilename(FileStem(s, i)), SanitizeFilename(FileStem(t, j));
      var d, e := DecimalString(i + 1), DecimalString(j + 1);
      var p, q := SystemPath(s, i), SystemPath(t, j);
      assert p == MapsDir + (a + "_" + d) + ".pas";
      assert q == MapsDir + (b + "_" + e) + ".pas";
      assert a + "_" + d == p[|MapsDir|..|p| - 4];
      assert b + "_" + e == q[|MapsDir|..|q| - 4];
      SuffixAfterLastUnderscore(a, d, b, e);
      DecimalStringInjective(i + 1, j + 1);
    }
  }

  /**
   * The paths of an archive's entries are pairwise distinct: the counter suffix tells the
   * system files apart whatever their names, and neither fixed file lies under `pa/maps/`.
   */
  lemma ArchivePathsDistinct(systems: seq<System>)
    ensures forall i, j :: 0 <= i < j < |systems| ==> SystemPath(systems[i], i) != SystemPath(systems[j], j)
    ensures forall i :: 0 <= i < |systems| ==>
      SystemPath(systems[i], i) != ModInfoEntry.path && SystemPath(systems[i], i) != ReadmeEntry.path
  {
    forall i, j | 0 <= i < j < |systems|
      ensures SystemPath(systems[i], i) != SystemPath(systems[j], j)
    {
      SystemPathInjective(systems[i], i, systems[j], j);
    }
    forall i | 0 <= i < |systems|
      ensures SystemPath(systems[i], i) != ModInfoEntry.path && SystemPath(systems[i], i) != ReadmeEntry.path
    {
      assert SystemPath(systems[i], i)[0] == 'p';
    }
  }

  /** Every system file name consists of safe characters only, and ends in ".pas". */
  lemma SystemPathShape(system: System, i: nat)
    ensures var p := SystemPath(system, i);
      && p[..|MapsDir|] == MapsDir
      && p[|p| - 4..] == ".pas"
      && AllSafe(p[|MapsDir|..|p| - 4])
  {
    var p := SystemPath(system, i);
    var name := SanitizeFilename(FileStem(system, i)) + "_" + DecimalString(i + 1);
    assert p == MapsDir + name + ".pas";
    assert p[|MapsDir|..|p| - 4] == name;
    SanitizeAlphabet(FileStem(system, i));
  }
}
