/** Archive naming (app.js:143-147) and the entries `createArchive` adds to the
    zip (app.js:73-76). Compression, streaming and the file system are not
    modelled; see the README. */
module Archive {
  import opened Paths

  /** `${name}_new_images-${uuid}.zip` (app.js:143). */
  function ArchiveName(name: string, uuid: string): string
  {
    name + "_new_images-" + uuid + ".zip"
  }

  /** Where one archive is written, moved to and published. */
  datatype Locations = Locations(file: string, tempPath: string, finalPath: string, url: string)

  /** app.js:143-147: one name, joined onto `/tmp`, `archiveBasePath` and
      `archiveBaseURL`. For names and uuids without `/`, the temporary path,
      the final path and the URL all end in that archive name, under `/tmp`,
      the archive directory and the archive URL prefix respectively. */
  function ArchiveLocations(name: string, uuid: string, basePath: string, baseUrl: string): (loc: Locations)
    ensures loc.file == ArchiveName(name, uuid)
    ensures '/' !in name && '/' !in uuid ==>
      && Basename(loc.tempPath) == loc.file && Dirname(loc.tempPath) == "/tmp"
      && Basename(loc.finalPath) == loc.file && Dirname(loc.finalPath) == basePath
      && Basename(loc.url) == loc.file && Dirname(loc.url) == baseUrl
  {
    var file := ArchiveName(name, uuid);
    var loc := Locations(file, JoinPath("/tmp", file), JoinPath(basePath, file), JoinPath(baseUrl, file));
    if '/' in name || '/' in uuid then loc
    else
      assert '/' !in file by {
        assert file == name + ("_new_images-" + (uuid + ".zip"));
        assert '/' !in "_new_images-" && '/' !in ".zip";
      }
      SplitJoinPath("/tmp", file);
      SplitJoinPath(basePath, file);
      SplitJoinPath(baseUrl, file);
      loc
  }

  /** The name starts with the creator's name and ends with `.zip`, and its
      middle is the uuid: different uuids give different names. */
  lemma ArchiveNameShape(name: string, uuid: string)
    ensures name + "_new_images-" <= ArchiveName(name, uuid)
    ensures ArchiveName(name, uuid)[|ArchiveName(name, uuid)| - 4..] == ".zip"
    ensures ArchiveName(name, uuid)[|name| + 12..|ArchiveName(name, uuid)| - 4] == uuid
  {
  }

  /** For one creator, distinct run identifiers never collide. */
  lemma ArchiveNameInjective(name: string, u1: string, u2: string)
    requires ArchiveName(name, u1) == ArchiveName(name, u2)
    ensures u1 == u2
  {
    ArchiveNameShape(name, u1);
    ArchiveNameShape(name, u2);
  }

  /** One `archive.file(filePath, { name: file })` call. */
  datatype Entry = Entry(source: string, name: string)

  /** The `files.forEach` loop of app.js:73-76: one entry per file, in order,
      read from the source directory and stored under the file's own name. */
  method ArchiveEntries(files: seq<string>, sourceDir: string) returns (entries: seq<Entry>)
    ensures |entries| == |files|
    ensures forall i :: 0 <= i < |files| ==> entries[i] == Entry(JoinPath(sourceDir, files[i]), files[i])
    ensures forall i :: 0 <= i < |files| && '/' !in files[i] ==>
      Basename(entries[i].source) == entries[i].name && Dirname(entries[i].source) == sourceDir
  {
    entries := [];
    for i := 0 to |files|
      invariant |entries| == i
      invariant forall k :: 0 <= k < i ==> entries[k] == Entry(JoinPath(sourceDir, files[k]), files[k])
    {
      var filePath := JoinPath(sourceDir, files[i]);
      entries := entries + [Entry(filePath, files[i])];
    }
    forall i | 0 <= i < |files| && '/' !in files[i]
      ensures Basename(entries[i].source) == entries[i].name && Dirname(entries[i].source) == sourceDir
    {
      SplitJoinPath(sourceDir, files[i]);
    }
  }
}
