/** The enrollment store of the legacy connector: one enrollment record is
    split into a secret credentials file and a metadata file under /data, and
    the two are merged back on load. The file system is a map from path to
    entry; a file holds a decoded JSON document, or text that does not parse. */
module EnrollmentStore {
  import opened Py

  const DataDir := "/data"
  const CredentialsPath := "/data/credentials.json"
  const EnrollmentPath := "/data/enrollment.json"

  /** Permission bits: 0o755 for the data directory, 0o600 for the
      credentials, 0o644 for the metadata. */
  const DirMode := 493
  const SecretMode := 384
  const MetadataMode := 420
  /** The mode a newly created file gets, 0o666 under a umask of 0o022. */
  const NewFileMode := 420

  datatype Content = Parsed(doc: Value) | Unparsable
  datatype Entry = Directory(mode: int) | File(content: Content, mode: int)
  type FileSystem = map<string, Entry>

  /** The credentials record that `save_enrollment_data` writes. */
  function CredentialsRecord(d: Dict): (r: Dict)
    ensures r.Keys == {"instanceId", "token"}
    ensures r["instanceId"] == Get(d, "instanceId", Null) && r["token"] == Get(d, "token", Null)
  {
    map["instanceId" := Get(d, "instanceId", Null), "token" := Get(d, "token", Null)]
  }

  /** The metadata record that `save_enrollment_data` writes. */
  function MetadataRecord(d: Dict): (r: Dict)
    ensures r.Keys == {"instanceId", "grpcServerUrl"}
    ensures r["instanceId"] == Get(d, "instanceId", Null) && r["grpcServerUrl"] == Get(d, "grpcServerUrl", Null)
  {
    map["instanceId" := Get(d, "instanceId", Null), "grpcServerUrl" := Get(d, "grpcServerUrl", Null)]
  }

  /** `ensure_data_dir`: creates /data with mode 0o755 only when nothing is there. */
  function WithDataDir(fs: FileSystem): (r: FileSystem)
    ensures DataDir in fs ==> r == fs
    ensures DataDir !in fs ==> r == fs[DataDir := Directory(DirMode)]
  {
    if DataDir in fs then fs else fs[DataDir := Directory(DirMode)]
  }

  /** Whether `open(path, "w")` fails: the path is a directory, or /data is not one. */
  predicate WriteFails(fs: FileSystem, path: string) {
    (path in fs && fs[path].Directory?) || (DataDir in fs && fs[DataDir].File?)
  }

  /** `json.dump` of a record into `path`: an existing file keeps its mode,
      a new one gets the default mode. */
  function WriteJson(fs: FileSystem, path: string, record: Dict): (r: Result<FileSystem>)
    ensures r.Raised? <==> WriteFails(fs, path)
    ensures r.Ok? ==> r.value.Keys == fs.Keys + {path} && path in r.value &&
                      r.value[path].File? && r.value[path].content == Parsed(Obj(record)) &&
                      forall p | p in fs && p != path :: r.value[p] == fs[p]
  {
    if WriteFails(fs, path) then Raised(OSError)
    else Ok(fs[path := File(Parsed(Obj(record)), if path in fs then fs[path].mode else NewFileMode)])
  }

  /** `os.chmod` of a file that was just written. */
  function Chmod(fs: FileSystem, path: string, mode: int): FileSystem
    requires path in fs && fs[path].File?
  {
    fs[path := fs[path].(mode := mode)]
  }

  /** The file system after `save_enrollment_data`, and whether an OSError
      escaped it (after the steps that had already been done). */
  datatype SaveOutcome = SaveOutcome(files: FileSystem, raised: bool)

  /** Reference definition of `save_enrollment_data`. */
  function Save(fs: FileSystem, d: Dict): SaveOutcome {
    var withDir := WithDataDir(fs);
    match WriteJson(withDir, CredentialsPath, CredentialsRecord(d))
    case Raised(_) => SaveOutcome(withDir, true)
    case Ok(written) =>
      var secured := Chmod(written, CredentialsPath, SecretMode);
      match WriteJson(secured, EnrollmentPath, MetadataRecord(d))
      case Raised(_) => SaveOutcome(secured, true)
      case Ok(both) => SaveOutcome(Chmod(both, EnrollmentPath, MetadataMode), false)
  }

  /** A save fails exactly when /data is a file or one of the two paths is a
      directory; otherwise the credentials hold exactly `{instanceId, token}`
      at 0o600, the metadata exactly `{instanceId, grpcServerUrl}` at 0o644,
      /data exists, and no other path is touched. */
  lemma SaveWrites(fs: FileSystem, d: Dict)
    ensures Save(fs, d).raised <==>
              (DataDir in fs && fs[DataDir].File?) ||
              (CredentialsPath in fs && fs[CredentialsPath].Directory?) ||
              (EnrollmentPath in fs && fs[EnrollmentPath].Directory?)
    ensures !Save(fs, d).raised ==>
              var after := Save(fs, d).files;
              && after.Keys == fs.Keys + {DataDir, CredentialsPath, EnrollmentPath}
              && after[CredentialsPath] == File(Parsed(Obj(CredentialsRecord(d))), SecretMode)
              && after[EnrollmentPath] == File(Parsed(Obj(MetadataRecord(d))), MetadataMode)
              && after[DataDir] == (if DataDir in fs then fs[DataDir] else Directory(DirMode))
              && forall p | p in fs && p !in {DataDir, CredentialsPath, EnrollmentPath} :: after[p] == fs[p]
  {
    var withDir := WithDataDir(fs);
    var written := WriteJson(withDir, CredentialsPath, CredentialsRecord(d));
    if written.Ok? {
      var secured := Chmod(written.value, CredentialsPath, SecretMode);
      assert WriteFails(secured, EnrollmentPath) <==> WriteFails(fs, EnrollmentPath);
    }
  }

  /** The text of `path` as a JSON document, if it is a file that parses. */
  function ReadJson(fs: FileSystem, path: string): Option<Value> {
    if path in fs && fs[path].File? && fs[path].content.Parsed? then Some(fs[path].content.doc) else None
  }

  /** `load_enrollment_data`: None when either file is absent or anything
      raises (a directory, text that does not parse, a document that is not
      an object, metadata without `instanceId`); otherwise the metadata
      record with `token` set from the credentials. */
  function Load(fs: FileSystem): (r: Option<Dict>)
    ensures CredentialsPath !in fs || EnrollmentPath !in fs ==> r == None
    ensures r.Some? ==>
              && ReadJson(fs, EnrollmentPath).Some? && ReadJson(fs, EnrollmentPath).value.Obj?
              && ReadJson(fs, CredentialsPath).Some? && ReadJson(fs, CredentialsPath).value.Obj?
              && var meta := ReadJson(fs, EnrollmentPath).value.fields;
                 var cred := ReadJson(fs, CredentialsPath).value.fields;
                 && "instanceId" in meta
                 && r.value.Keys == meta.Keys + {"token"}
                 && r.value["token"] == Get(cred, "token", Null)
                 && forall k | k in meta && k != "token" :: r.value[k] == meta[k]
  {
    if CredentialsPath !in fs || EnrollmentPath !in fs then None
    else
      match (ReadJson(fs, EnrollmentPath), ReadJson(fs, CredentialsPath))
      case (Some(Obj(meta)), Some(Obj(cred))) =>
        if "instanceId" in meta then Some(meta["token" := Get(cred, "token", Null)]) else None
      case _ => None
  }

  /** Save then load: the record comes back with its `instanceId`,
      `grpcServerUrl` and `token`, and nothing else. */
  lemma SaveThenLoad(fs: FileSystem, d: Dict)
    requires !Save(fs, d).raised
    ensures Load(Save(fs, d).files) ==
              Some(map["instanceId" := Get(d, "instanceId", Null),
                       "grpcServerUrl" := Get(d, "grpcServerUrl", Null),
                       "token" := Get(d, "token", Null)])
  {
    SaveWrites(fs, d);
  }

  /** A record whose keys are exactly the three stored ones survives a save
      and a load unchanged. */
  lemma RoundTrip(fs: FileSystem, d: Dict)
    requires !Save(fs, d).raised
    requires d.Keys == {"instanceId", "grpcServerUrl", "token"}
    ensures Load(Save(fs, d).files) == Some(d)
  {
    SaveThenLoad(fs, d);
    var loaded := Load(Save(fs, d).files).value;
    assert loaded.Keys == d.Keys;
    assert loaded["instanceId"] == d["instanceId"];
    assert loaded["grpcServerUrl"] == d["grpcServerUrl"];
    assert loaded["token"] == d["token"];
    assert forall k | k in d :: k == "instanceId" || k == "grpcServerUrl" || k == "token";
    assert loaded == d;
  }

  /** After a save, losing either file makes the store read as not enrolled. */
  lemma LoadNeedsBothFiles(fs: FileSystem, d: Dict, lost: string)
    requires !Save(fs, d).raised
    requires lost == CredentialsPath || lost == EnrollmentPath
    ensures Load(Save(fs, d).files) != None
    ensures Load(Save(fs, d).files - {lost}) == None
  {
    SaveThenLoad(fs, d);
  }

  /** The data directory as an object whose methods change it step by step. */
  class Disk {
    var files: FileSystem

    constructor (initial: FileSystem)
      ensures files == initial
    {
      files := initial;
    }

    /** `ensure_data_dir`. */
    method EnsureDataDir()
      modifies this
      ensures files == WithDataDir(old(files))
    {
      if DataDir !in files {
        files := files[DataDir := Directory(DirMode)];
      }
    }

    /** Opens `path` for writing and dumps `record` into it. */
    method DumpJson(path: string, record: Dict) returns (r: Result<()>)
      modifies this
      ensures WriteJson(old(files), path, record).Ok? ==> r == Ok(()) && files == WriteJson(old(files), path, record).value
      ensures WriteJson(old(files), path, record).Raised? ==> r == Raised(OSError) && files == old(files)
    {
      if (path in files && files[path].Directory?) || (DataDir in files && files[DataDir].File?) {
        return Raised(OSError);
      }
      var mode := if path in files then files[path].mode else NewFileMode;
      files := files[path := File(Parsed(Obj(record)), mode)];
      return Ok(());
    }

    /** `os.chmod` of a file. */
    method SetMode(path: string, mode: int)
      requires path in files && files[path].File?
      modifies this
      ensures files == Chmod(old(files), path, mode)
    {
      files := files[path := File(files[path].content, mode)];
    }

    /** `save_enrollment_data`: the directory, the credentials file and its
        mode, the metadata file and its mode, in that order; a failed write
        stops it with the earlier steps done. */
    method SaveEnrollmentData(d: Dict) returns (raised: bool)
      modifies this
      ensures raised == Save(old(files), d).raised
      ensures files == Save(old(files), d).files
    {
      EnsureDataDir();
      var wrote := DumpJson(CredentialsPath, CredentialsRecord(d));
      if wrote.Raised? {
        return true;
      }
      SetMode(CredentialsPath, SecretMode);
      wrote := DumpJson(EnrollmentPath, MetadataRecord(d));
      if wrote.Raised? {
        return true;
      }
      SetMode(EnrollmentPath, MetadataMode);
      return false;
    }
  }
}
