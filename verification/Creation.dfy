/**
 * One upload request from start to end: the transaction that inserts an import with its key, file and job,
 * and the use case that saves the upload first and deletes it again when the key turns out to be taken.
 */
module Creation {
  import opened Prelude
  import opened Storage
  import opened Uploads

  datatype Creation = New(id: ImportId) | Existing(id: ImportId) | Failed

  class ImportRepository {
    var imports: set<ImportId>
    var keys: map<Key, ImportId>
    var files: set<FileRow>
    var jobs: set<ImportId>

    ghost predicate Valid() reads this { forall id :: OneOfEach(keys, imports, files, jobs, id) }

    constructor ()
      ensures Valid() && imports == {} && keys == map[] && files == {} && jobs == {}
    {
      imports, keys, files, jobs := {}, map[], {}, {};
    }

    // One transaction: all four rows or none. A taken key is answered with its import.
    method CreateOrReturnExisting(id: ImportId, key: Key, path: Path, outage: bool, adapter: bool) returns (r: Creation)
      requires Valid()
      modifies this
      ensures Valid()
      ensures r.New? <==> !outage && id !in old(imports) && key !in old(keys)
      ensures r.Existing? <==> !outage && id !in old(imports) && key in old(keys)
      ensures r.New? ==> r.id == id && keys == old(keys)[key := id] && imports == old(imports) + {id}
                         && files == old(files) + {FileRow(id, path)} && jobs == old(jobs) + {id}
      ensures r.Existing? ==> r.id == old(keys)[key]
      ensures !r.New? ==> unchanged(this)
    {
      if outage { return Failed; }
      match Hit(imports, keys, id, key)
      case Some(index) =>
        OnlyKeyIsReplay(index, adapter);
        r := if IsIdempotencyKeyConflict(Violation(index, adapter)) then Existing(keys[key]) else Failed;
      case None =>
        var keys', imports', files', jobs' := keys[key := id], imports + {id}, files + {FileRow(id, path)}, jobs + {id};
        forall i ensures OneOfEach(keys', imports', files', jobs', i) {
          CommitKeepsOne(keys, imports, files, jobs, key, FileRow(id, path), i);
        }
        imports, keys, files, jobs := imports', keys', files', jobs';
        r := New(id);
    }
  }

  datatype Command = Command(key: Key, stream: Option<Stream>, filename: Option<string>, mimeType: string)
  datatype CreateResult = CreateResult(id: ImportId, isNew: bool)

  // Every file on disk belongs to an import, and every import's file is there.
  ghost predicate Matched(disk: map<Location, Entry>, files: set<FileRow>) {
    disk.Keys == set r | r in files :: r.path
  }

  class CreateImport {
    const storage: DiskFileStorage
    const repository: ImportRepository

    constructor (storage: DiskFileStorage, repository: ImportRepository)
      ensures this.storage == storage && this.repository == repository
    {
      this.storage, this.repository := storage, repository;
    }

    // Records a saved file under the key, or throws the file away if the key already has an import.
    method Record(key: Key, path: Location, name: string, id: ImportId, outage: bool) returns (r: Result<CreateResult>)
      requires repository.Valid() && path == storage.root + [name] && name != "" && name[0] != '.'
      requires path in storage.disk && storage.disk[path].File?
      modifies storage`disk, repository
      ensures repository.Valid()
      ensures r.Ok? && !r.value.isNew ==>
                unchanged(repository) && storage.disk == old(storage.disk) - {path}
                && key in repository.keys && r.value.id == repository.keys[key]
      ensures r.Ok? && r.value.isNew ==>
                unchanged(storage) && r.value.id == id && key !in old(repository.keys)
                && repository.keys == old(repository.keys)[key := id]
                && repository.files == old(repository.files) + {FileRow(id, path)}
      ensures r.Err? ==> unchanged(repository) && unchanged(storage) && r.error == DatabaseError
      ensures r.Err? <==> outage || id in old(repository.imports)
      ensures r.Ok? && r.value.isNew <==>
                !outage && id !in old(repository.imports) && key !in old(repository.keys)
    {
      var created := repository.CreateOrReturnExisting(id, key, path, outage, true);
      match created
      case Failed =>
        r := Err(DatabaseError);
      case Existing(existing) =>
        GeneratedNameStays(storage.root, name);
        var deleted := storage.Delete(path);
        r := Ok(CreateResult(existing, false));
      case New(_) =>
        r := Ok(CreateResult(id, true));
    }

    // Streams an accepted upload to disk and records it.
    method SaveAndRecord(key: Key, source: Stream, extension: string, maxBytes: nat, uuid: string, id: ImportId,
                         now: int, digest: Bytes -> string, outage: bool) returns (r: Result<CreateResult>)
      requires repository.Valid() && uuid != "" && uuid[0] != '.'
      requires storage.root + [uuid + SanitizeExtension(extension)] !in storage.disk
      modifies storage`disk, repository
      ensures repository.Valid()
      ensures r.Ok? && !r.value.isNew ==>
                unchanged(repository) && storage.disk == old(storage.disk)
                && key in repository.keys && r.value.id == repository.keys[key]
      ensures r.Ok? && r.value.isNew ==>
                var path := storage.root + [uuid + SanitizeExtension(extension)];
                && r.value.id == id && key !in old(repository.keys)
                && repository.keys == old(repository.keys)[key := id]
                && repository.files == old(repository.files) + {FileRow(id, path)}
                && storage.disk == old(storage.disk)[path := File(Flatten(source.chunks), now)]
      ensures r.Err? ==> unchanged(repository)
      ensures r.Err? && r.error != DatabaseError ==> storage.disk == old(storage.disk)
      ensures var content, ready := Flatten(source.chunks), !outage && id !in old(repository.imports);
              && (r == Err(TooLarge) <==> |content| > maxBytes || (!source.broken && source.truncated))
              && (r == Err(StreamBroken) <==> |content| <= maxBytes && source.broken)
              && (|content| <= maxBytes && !source.broken && !source.truncated ==>
                    (r == Err(DatabaseError) <==> !ready)
                    && (r.Ok? && r.value.isNew <==> ready && key !in old(repository.keys)))
      ensures r != Err(NoFile) && r != Err(InvalidType)
    {
      var saved := storage.Save(source, extension, maxBytes, uuid, now, digest);
      if saved.Err? { return Err(saved.error); }
      r := Record(key, saved.value.path, uuid + SanitizeExtension(extension), id, outage);
    }

    // The names uuid and id are newly generated: no file can be named after uuid yet.
    method Execute(command: Command, maxBytes: nat, uuid: string, id: ImportId, now: int, digest: Bytes -> string,
                   outage: bool) returns (r: Result<CreateResult>)
      requires repository.Valid() && uuid != "" && uuid[0] != '.'
      requires forall extension :: storage.root + [uuid + SanitizeExtension(extension)] !in storage.disk
      modifies storage`disk, repository
      ensures repository.Valid()
      ensures r.Ok? && !r.value.isNew ==>
                unchanged(repository) && storage.disk == old(storage.disk)
                && command.key in repository.keys && r.value.id == repository.keys[command.key]
      ensures r.Ok? && r.value.isNew ==>
                r.value.id == id && command.key !in old(repository.keys)
                && repository.keys == old(repository.keys)[command.key := id]
      ensures r.Err? ==> unchanged(repository)
      ensures r.Err? && r.error != DatabaseError ==> storage.disk == old(storage.disk)
      ensures command.stream.None? <==> r == Err(NoFile)
      ensures var name := if command.filename.Some? then command.filename.value else "";
              r == Err(InvalidType) <==>
                && command.stream.Some?
                && (!(EndsIn(name, ".ndjson") || EndsIn(name, ".jsonl") || EndsIn(name, ".json"))
                    || !(command.mimeType == "application/x-ndjson" || command.mimeType == "application/json"
                         || command.mimeType == "text/plain" || command.mimeType == "application/octet-stream"))
      ensures command.stream.Some? && r != Err(InvalidType) ==>
                var source, ready := command.stream.value, !outage && id !in old(repository.imports);
                var content := Flatten(source.chunks);
                && (r == Err(TooLarge) <==> |content| > maxBytes || (!source.broken && source.truncated))
                && (r == Err(StreamBroken) <==> |content| <= maxBytes && source.broken)
                && (|content| <= maxBytes && !source.broken && !source.truncated ==>
                      (r == Err(DatabaseError) <==> !ready)
                      && (r.Ok? && r.value.isNew <==> ready && command.key !in old(repository.keys)))
      ensures Matched(old(storage.disk), old(repository.files)) && r != Err(DatabaseError) ==>
                Matched(storage.disk, repository.files)
    {
      if command.stream.None? { return Err(NoFile); }
      var extension := ExtractExtension(command.filename);
      AcceptedIff(command.filename, command.mimeType);
      if !AllowedFileType(extension, command.mimeType) { return Err(InvalidType); }
      r := SaveAndRecord(command.key, command.stream.value, extension, maxBytes, uuid, id, now, digest, outage);
    }
  }
}
