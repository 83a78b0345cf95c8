/**
 * Unity Catalog volume paths `/Volumes/<catalog>/<schema>/<volume>/<file_name>`:
 * Python's `str.split('/')`, the parser `parse_uc_file_path` and the path the
 * importer builds from four components.
 */
module UcPath {
  import opened Wrappers

  /** The ValueErrors the importer raises, one per message. */
  datatype ValueError =
    | InvalidPathFormat
    | PathAndComponentsBoth
    | NeitherPathNorComponents
    | MissingComponents(names: seq<string>)
    | UrlRequired
    | FilePathRequired

  datatype Components = Components(catalog: string, schema: string, volume: string, fileName: string)

  const Sep: char := '/'

  function CountSep(s: string): nat
    decreases |s|
  {
    if |s| == 0 then 0 else (if s[0] == Sep then 1 else 0) + CountSep(s[1..])
  }

  /** Python's `s.split('/')`: the pieces between separators, always at least one. */
  function Split(s: string): (pieces: seq<string>)
    ensures |pieces| >= 1
    decreases |s|
  {
    if |s| == 0 then [""]
    else
      var rest := Split(s[1..]);
      if s[0] == Sep then [""] + rest
      else [[s[0]] + rest[0]] + rest[1..]
  }

  /** `'/'.join(pieces)`. */
  function Join(pieces: seq<string>): string
    requires |pieces| >= 1
    decreases |pieces|
  {
    if |pieces| == 1 then pieces[0] else pieces[0] + [Sep] + Join(pieces[1..])
  }

  /**
   * `parse_uc_file_path`: drop the first two pieces of the split and unpack
   * exactly four. Like Python's slice, `[2:]` of a shorter list is empty.
   * The first two pieces are not checked.
   *
   * The source declares it inside the importer class without `self` and
   * calls it as a bare name, which raises NameError; it is modelled as the
   * module-level function that call evidently intends.
   */
  function ParseUcFilePath(filePath: string): (r: Result<Components, ValueError>)
    ensures r.Ok? <==> |Split(filePath)| == 6
    ensures r.Ok? ==> r.value == Components(Split(filePath)[2], Split(filePath)[3], Split(filePath)[4], Split(filePath)[5])
    ensures r.Err? ==> r.error == InvalidPathFormat
  {
    var pieces := Split(filePath);
    var tail := if |pieces| >= 2 then pieces[2..] else [];
    if |tail| == 4 then Ok(Components(tail[0], tail[1], tail[2], tail[3]))
    else Err(InvalidPathFormat)
  }

  /**
   * The f-string `/Volumes/{catalog}/{schema}/{volume}/{file_name}`: the
   * `Volumes` prefix followed by the four components joined with separators.
   */
  function BuildUcFilePath(c: Components): (p: string)
    ensures p == [Sep] + ("Volumes" + [Sep] + JoinComponents(c))
  {
    "/Volumes/" + c.catalog + "/" + c.schema + "/" + c.volume + "/" + c.fileName
  }

  predicate NoSep(s: string) {
    forall i :: 0 <= i < |s| ==> s[i] != Sep
  }

  predicate ComponentsHaveNoSep(c: Components) {
    NoSep(c.catalog) && NoSep(c.schema) && NoSep(c.volume) && NoSep(c.fileName)
  }

  // ---------------------------------------------------------------------------
  // Properties of Split

  lemma {:induction false} SplitCount(s: string)
    ensures |Split(s)| == CountSep(s) + 1
    decreases |s|
  {
    if |s| > 0 {
      SplitCount(s[1..]);
    }
  }

  lemma {:induction false} SplitPiecesHaveNoSep(s: string)
    ensures forall k :: 0 <= k < |Split(s)| ==> NoSep(Split(s)[k])
    decreases |s|
  {
    if |s| > 0 {
      SplitPiecesHaveNoSep(s[1..]);
      var rest := Split(s[1..]);
      if s[0] != Sep {
        assert NoSep([s[0]] + rest[0]);
      }
    }
  }

  /** Splitting then joining gives back the original string. */
  lemma {:induction false} JoinSplit(s: string)
    ensures Join(Split(s)) == s
    decreases |s|
  {
    if |s| > 0 {
      JoinSplit(s[1..]);
      var rest := Split(s[1..]);
      if s[0] == Sep {
        assert ([""] + rest)[1..] == rest;
      } else {
        var pieces := [[s[0]] + rest[0]] + rest[1..];
        if |rest| > 1 {
          assert pieces[1..] == rest[1..];
          assert s == [s[0]] + s[1..];
        }
      }
    }
  }

  lemma {:induction false} SplitNoSep(s: string)
    requires NoSep(s)
    ensures Split(s) == [s]
    decreases |s|
  {
    if |s| > 0 {
      SplitNoSep(s[1..]);
      assert [s[0]] + s[1..] == s;
    }
  }

  /** A separator splits a string into the pieces of its two sides. */
  lemma {:induction false} SplitAtSep(a: string, b: string)
    ensures Split(a + [Sep] + b) == Split(a) + Split(b)
    decreases |a|
  {
    var s := a + [Sep] + b;
    if |a| == 0 {
      assert s == [Sep] + b;
      assert s[1..] == b;
    } else {
      assert s[1..] == a[1..] + [Sep] + b;
      SplitAtSep(a[1..], b);
    }
  }

  // ---------------------------------------------------------------------------
  // Properties of the parser

  /** Parsing succeeds exactly when the path has five separators (six pieces). */
  lemma ParseOkIffFiveSeparators(filePath: string)
    ensures ParseUcFilePath(filePath).Ok? <==> CountSep(filePath) == 5
  {
    SplitCount(filePath);
  }

  /** Parsed components never contain a separator. */
  lemma ParsedComponentsHaveNoSep(filePath: string)
    requires ParseUcFilePath(filePath).Ok?
    ensures ComponentsHaveNoSep(ParseUcFilePath(filePath).value)
  {
    SplitPiecesHaveNoSep(filePath);
  }

  /** The four components joined by separators, without the `/Volumes/` prefix. */
  function JoinComponents(c: Components): string {
    c.catalog + [Sep] + (c.schema + [Sep] + (c.volume + [Sep] + c.fileName))
  }

  lemma SplitUnderVolumes(rest: string)
    ensures Split([Sep] + ("Volumes" + [Sep] + rest)) == ["", "Volumes"] + Split(rest)
  {
    assert NoSep("Volumes");
    SplitNoSep("Volumes");
    SplitAtSep("Volumes", rest);
    SplitAtSep("", "Volumes" + [Sep] + rest);
    assert "" + [Sep] + ("Volumes" + [Sep] + rest) == [Sep] + ("Volumes" + [Sep] + rest);
  }

  lemma SplitJoinComponents(c: Components)
    requires ComponentsHaveNoSep(c)
    ensures Split(JoinComponents(c)) == [c.catalog, c.schema, c.volume, c.fileName]
  {
    SplitNoSep(c.catalog);
    SplitNoSep(c.schema);
    SplitNoSep(c.volume);
    SplitNoSep(c.fileName);
    var p4 := c.volume + [Sep] + c.fileName;
    var p3 := c.schema + [Sep] + p4;
    SplitAtSep(c.volume, c.fileName);
    SplitAtSep(c.schema, p4);
    SplitAtSep(c.catalog, p3);
  }

  /** Building a path from separator-free components and parsing it gives the components back. */
  lemma ParseBuildRoundTrip(c: Components)
    requires ComponentsHaveNoSep(c)
    ensures ParseUcFilePath(BuildUcFilePath(c)) == Ok(c)
  {
    SplitUnderVolumes(JoinComponents(c));
    SplitJoinComponents(c);
  }

  /** A parsable path under `/Volumes/` is exactly the path built from what it parses to. */
  lemma BuildParseRoundTrip(rest: string)
    requires ParseUcFilePath([Sep] + ("Volumes" + [Sep] + rest)).Ok?
    ensures BuildUcFilePath(ParseUcFilePath([Sep] + ("Volumes" + [Sep] + rest)).value)
         == [Sep] + ("Volumes" + [Sep] + rest)
  {
    SplitUnderVolumes(rest);
    var pieces := Split(rest);
    JoinSplit(rest);
    assert |pieces| == 4;
    var c := Components(pieces[0], pieces[1], pieces[2], pieces[3]);
    assert pieces[1..][1..] == pieces[2..];
    assert pieces[2..][1..] == pieces[3..];
    assert Join(pieces[3..]) == pieces[3];
    assert Join(pieces[2..]) == pieces[2] + [Sep] + pieces[3];
    assert Join(pieces[1..]) == pieces[1] + [Sep] + (pieces[2] + [Sep] + pieces[3]);
    assert Join(pieces) == JoinComponents(c);
  }

  /** The documented example. */
  lemma ParseExample()
    ensures ParseUcFilePath("/Volumes/main/logistics/raw/ocel.json")
         == Ok(Components("main", "logistics", "raw", "ocel.json"))
  {
    var c := Components("main", "logistics", "raw", "ocel.json");
    assert BuildUcFilePath(c) == "/Volumes/main/logistics/raw/ocel.json";
    ParseBuildRoundTrip(c);
  }

  lemma {:induction false} CountSepConcat(a: string, b: string)
    ensures CountSep(a + b) == CountSep(a) + CountSep(b)
    decreases |a|
  {
    if |a| > 0 {
      assert (a + b)[0] == a[0] && (a + b)[1..] == a[1..] + b;
      CountSepConcat(a[1..], b);
    } else {
      assert a + b == b;
    }
  }

  lemma {:induction false} CountSepZeroIffNoSep(s: string)
    ensures CountSep(s) == 0 <==> NoSep(s)
    decreases |s|
  {
    if |s| > 0 {
      CountSepZeroIffNoSep(s[1..]);
      assert forall i :: 1 <= i < |s| ==> s[i] == s[1..][i - 1];
    }
  }

  /** The built path has five separators plus those inside the components. */
  lemma BuildSepCount(c: Components)
    ensures CountSep(BuildUcFilePath(c))
         == 5 + CountSep(c.catalog) + CountSep(c.schema) + CountSep(c.volume) + CountSep(c.fileName)
  {
    assert NoSep("Volumes");
    CountSepZeroIffNoSep("Volumes");
    CountSepConcat(c.volume + [Sep], c.fileName);
    CountSepConcat(c.volume, [Sep]);
    var p4 := c.volume + [Sep] + c.fileName;
    CountSepConcat(c.schema + [Sep], p4);
    CountSepConcat(c.schema, [Sep]);
    var p3 := c.schema + [Sep] + p4;
    CountSepConcat(c.catalog + [Sep], p3);
    CountSepConcat(c.catalog, [Sep]);
    var p2 := c.catalog + [Sep] + p3;
    CountSepConcat("Volumes" + [Sep], p2);
    CountSepConcat("Volumes", [Sep]);
    CountSepConcat([Sep], "Volumes" + [Sep] + p2);
  }

  /** The path built from components parses back to them exactly when no component holds a separator. */
  lemma ParseBuildIffNoSep(c: Components)
    ensures ParseUcFilePath(BuildUcFilePath(c)) == Ok(c) <==> ComponentsHaveNoSep(c)
  {
    if ComponentsHaveNoSep(c) {
      ParseBuildRoundTrip(c);
    } else {
      BuildSepCount(c);
      CountSepZeroIffNoSep(c.catalog);
      CountSepZeroIffNoSep(c.schema);
      CountSepZeroIffNoSep(c.volume);
      CountSepZeroIffNoSep(c.fileName);
      ParseOkIffFiveSeparators(BuildUcFilePath(c));
    }
  }
}
