/**
 * The configuration state of `OCEL2UCImporter`: where in a Unity Catalog
 * volume the downloaded document lives, set either from a full path or from
 * its four components, and the argument checks `download_file` makes before
 * it downloads anything.
 */
module UcImporter {
  import opened Wrappers
  import opened UcPath

  /** The names of the components left out, in the order catalog, schema, volume, file_name. */
  function MissingComponentNames(catalog: Option<string>, schema: Option<string>,
                                 volume: Option<string>, fileName: Option<string>): (missing: seq<string>)
    ensures "catalog" in missing <==> catalog.None?
    ensures "schema" in missing <==> schema.None?
    ensures "volume" in missing <==> volume.None?
    ensures "file_name" in missing <==> fileName.None?
    ensures forall n :: n in missing ==> n in ["catalog", "schema", "volume", "file_name"]
    ensures forall i, j :: 0 <= i < j < |missing| ==> ComponentRank(missing[i]) < ComponentRank(missing[j])
  {
    (if catalog.None? then ["catalog"] else [])
    + (if schema.None? then ["schema"] else [])
    + (if volume.None? then ["volume"] else [])
    + (if fileName.None? then ["file_name"] else [])
  }

  /** Position of a component name in the order the source lists them. */
  function ComponentRank(name: string): nat {
    if name == "catalog" then 0
    else if name == "schema" then 1
    else if name == "volume" then 2
    else 3
  }

  class Importer {
    var catalog: Option<string>
    var schema: Option<string>
    var volume: Option<string>
    var fileName: Option<string>
    var filePath: Option<string>

    constructor ()
      ensures catalog.None? && schema.None? && volume.None? && fileName.None? && filePath.None?
    {
      catalog, schema, volume, fileName, filePath := None, None, None, None, None;
    }

    /** The stored path parses to exactly the stored components. */
    predicate Consistent()
      reads this
    {
      && catalog.Some? && schema.Some? && volume.Some? && fileName.Some? && filePath.Some?
      && ParseUcFilePath(filePath.value) == Ok(Components(catalog.value, schema.value, volume.value, fileName.value))
    }

    /**
     * `set_uc_file_path`: exactly one of a full path or the four components.
     * Every failure leaves the importer unchanged.
     */
    method SetUcFilePath(filePath: Option<string>, catalog: Option<string>, schema: Option<string>,
                         volume: Option<string>, fileName: Option<string>) returns (r: Outcome<ValueError>)
      modifies this
      ensures var hasComponents := catalog.Some? || schema.Some? || volume.Some? || fileName.Some?;
        && (filePath.Some? && hasComponents ==> r == Fail(PathAndComponentsBoth))
        && (filePath.None? && !hasComponents ==> r == Fail(NeitherPathNorComponents))
        && (filePath.Some? && !hasComponents ==>
              r == (if ParseUcFilePath(filePath.value).Ok? then Pass else Fail(InvalidPathFormat)))
        && (filePath.None? && hasComponents ==>
              var missing := MissingComponentNames(catalog, schema, volume, fileName);
              r == (if missing == [] then Pass else Fail(MissingComponents(missing))))
      ensures r.Fail? ==> unchanged(this)
      ensures r.Pass? && filePath.Some? ==>
        && this.filePath == filePath
        && Consistent()
      ensures r.Pass? && filePath.None? ==>
        && this.catalog == catalog && this.schema == schema && this.volume == volume && this.fileName == fileName
        && this.filePath == Some(BuildUcFilePath(Components(catalog.value, schema.value, volume.value, fileName.value)))
        && (Consistent() <==> ComponentsHaveNoSep(Components(catalog.value, schema.value, volume.value, fileName.value)))
    {
      var hasFilePath := filePath.Some?;
      var hasComponents := catalog.Some? || schema.Some? || volume.Some? || fileName.Some?;

      if hasFilePath && hasComponents {
        return Fail(PathAndComponentsBoth);
      }
      if !hasFilePath && !hasComponents {
        return Fail(NeitherPathNorComponents);
      }

      if hasFilePath {
        var elements := ParseUcFilePath(filePath.value);
        if elements.Err? {
          return Fail(elements.error);
        }
        this.catalog := Some(elements.value.catalog);
        this.schema := Some(elements.value.schema);
        this.volume := Some(elements.value.volume);
        this.fileName := Some(elements.value.fileName);
        this.filePath := filePath;
        return Pass;
      }

      var missing := MissingComponentNames(catalog, schema, volume, fileName);
      if missing != [] {
        return Fail(MissingComponents(missing));
      }

      this.catalog := catalog;
      this.schema := schema;
      this.volume := volume;
      this.fileName := fileName;
      var c := Components(catalog.value, schema.value, volume.value, fileName.value);
      this.filePath := Some(BuildUcFilePath(c));
      ParseBuildIffNoSep(c);
      return Pass;
    }

    /**
     * The argument checks of `download_file`: `url` is required, and the
     * destination is the `filePath` argument or else the configured path.
     * Returns the destination the download would write to.
     */
    method DownloadDestination(url: Option<string>, filePath: Option<string>) returns (r: Result<string, ValueError>)
      ensures url.None? ==> r == Err(UrlRequired)
      ensures url.Some? && filePath.None? && this.filePath.None? ==> r == Err(FilePathRequired)
      ensures r.Err? <==> url.None? || (filePath.None? && this.filePath.None?)
      ensures r.Ok? && filePath.Some? ==> r.value == filePath.value
      ensures r.Ok? && filePath.None? ==> Some(r.value) == this.filePath
    {
      if url.None? {
        return Err(UrlRequired);
      }
      var destination := filePath;
      if destination.None? {
        if this.filePath.Some? {
          destination := this.filePath;
        } else {
          return Err(FilePathRequired);
        }
      }
      return Ok(destination.value);
    }
  }
}
