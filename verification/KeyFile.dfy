/** The key file (core/src/persist/key.rs): a file system as names bound to files, and
    the functions that create and replace the key, with every file operation free to
    fail. The caller's random choices and the failures are parameters. */
module KeyFile {
  import opened Prelude
  import opened Bytes

  const KEY_LENGTH := 32
  const ATTEMPTS_MAX := 16

  datatype Name = Target | Temp(id: int)

  datatype Kind = NotFound | AlreadyExists | OtherKind

  datatype KeyError = Io(kind: Kind) | InvalidLength(actual: nat)

  type Outcome = Result<seq<Byte>, KeyError>

  // ----- the file system

  /** `next` is a file number that was never used. */
  datatype Files = Files(names: map<Name, int>, contents: map<int, seq<Byte>>, next: int)

  ghost predicate FilesOk(files: Files) {
    && (forall n <- files.names :: files.names[n] in files.contents)
    && (forall f <- files.contents :: f < files.next)
  }

  function ContentAt(files: Files, n: Name): Option<seq<Byte>> {
    if n in files.names && files.names[n] in files.contents then Some(files.contents[files.names[n]]) else None
  }

  function Created(files: Files, n: Name): Files {
    Files(files.names[n := files.next], files.contents[files.next := []], files.next + 1)
  }

  function Appended(files: Files, file: int, bytes: seq<Byte>): Files {
    if file in files.contents then files.(contents := files.contents[file := files.contents[file] + bytes]) else files
  }

  function Linked(files: Files, from: Name, to: Name): Files
    requires from in files.names
  {
    files.(names := files.names[to := files.names[from]])
  }

  function Removed(files: Files, n: Name): Files {
    files.(names := files.names - {n})
  }

  /** `load_key`, once the file has been read. */
  function Loaded(content: Option<seq<Byte>>): Outcome {
    match content
    case None => Err(Io(NotFound))
    case Some(bytes) => if |bytes| != KEY_LENGTH then Err(InvalidLength(|bytes|)) else Ok(bytes)
  }

  /** Each operation fails by itself only with the kind given for it. */
  datatype Faults = Faults(
    read: Option<Kind>, makeDirectory: Option<Kind>, open: Option<Kind>, write: Option<Kind>, written: nat,
    sync: Option<Kind>, publish: Option<Kind>, syncDirectory: Option<Kind>, reread: Option<Kind>, removal: bool)

  class FileSystem {
    var files: Files

    constructor (initial: Files)
      ensures files == initial
    {
      files := initial;
    }

    method Read(n: Name, fault: Option<Kind>) returns (r: Result<seq<Byte>, Kind>)
      ensures fault.Some? ==> r == Err(fault.value)
      ensures fault.None? ==> r == match ContentAt(files, n) case Some(bytes) => Ok(bytes) case None => Err(NotFound)
    {
      if fault.Some? {
        return Err(fault.value);
      }
      var content := ContentAt(files, n);
      r := if content.Some? then Ok(content.value) else Err(NotFound);
    }

    /** `create_new`: the opened file, or the reason there is none. */
    method CreateNew(n: Name, fault: Option<Kind>) returns (r: Result<int, Kind>)
      modifies this
      ensures r.Ok? <==> fault.None? && n !in old(files).names
      ensures r.Ok? ==> r.value == old(files).next && files == Created(old(files), n)
      ensures r.Err? ==> files == old(files) && r.error == (if fault.Some? then fault.value else AlreadyExists)
    {
      if fault.Some? {
        return Err(fault.value);
      } else if n in files.names {
        return Err(AlreadyExists);
      }
      r := Ok(files.next);
      files := Created(files, n);
    }

    /** `hard_link` never replaces. */
    method HardLink(from: Name, to: Name, fault: Option<Kind>) returns (r: Option<Kind>)
      modifies this
      ensures r.None? <==> fault.None? && from in old(files).names && to !in old(files).names
      ensures files == if r.None? then Linked(old(files), from, to) else old(files)
      ensures r.Some? && fault.None? && to in old(files).names ==> r.value == AlreadyExists
      ensures fault.Some? ==> r == fault
    {
      if fault.Some? {
        return fault;
      } else if to in files.names {
        return Some(AlreadyExists);
      } else if from !in files.names {
        return Some(NotFound);
      }
      files := Linked(files, from, to);
      r := None;
    }

    /** `rename` replaces in one step. */
    method Rename(from: Name, to: Name, fault: Option<Kind>) returns (r: Option<Kind>)
      modifies this
      ensures r.None? <==> fault.None? && from in old(files).names
      ensures fault.Some? ==> r == fault
      ensures files == if r.None? then Removed(Linked(old(files), from, to), from) else old(files)
    {
      if fault.Some? {
        return fault;
      } else if from !in files.names {
        return Some(NotFound);
      }
      files := Removed(Linked(files, from, to), from);
      r := None;
    }

    /** The drop of `TempKey`, which ignores failures. */
    method Remove(n: Name, fails: bool)
      modifies this
      ensures files == if fails then old(files) else Removed(old(files), n)
    {
      if !fails {
        files := Removed(files, n);
      }
    }

    method Append(file: int, bytes: seq<Byte>)
      modifies this
      ensures files == Appended(old(files), file, bytes)
    {
      files := Appended(files, file, bytes);
    }
  }

  /** Everything that had a name keeps it, and its content. */
  ghost predicate Keeps(before: Files, after: Files) {
    forall n <- before.names :: n in after.names && ContentAt(after, n) == ContentAt(before, n)
  }

  /** ... and the only new name is the temporary one, if it is there at all. */
  ghost predicate AddsOnly(before: Files, after: Files, n: Name) {
    Keeps(before, after) && after.names.Keys <= before.names.Keys + {n}
  }

  /** A temporary file with some content. */
  function WithTemp(files: Files, temp: int, bytes: seq<Byte>): Files {
    Appended(Created(files, Temp(temp)), files.next, bytes)
  }

  lemma TempIsWritten(files: Files, temp: int, bytes: seq<Byte>)
    requires FilesOk(files) && Temp(temp) !in files.names
    ensures var after := WithTemp(files, temp, bytes);
            && FilesOk(after) && AddsOnly(files, after, Temp(temp)) && ContentAt(after, Temp(temp)) == Some(bytes)
  {
    assert [] + bytes == bytes;
  }

  lemma TempIsRemoved(files: Files, temp: int, bytes: seq<Byte>)
    requires FilesOk(files) && Temp(temp) !in files.names
    ensures var after := Removed(WithTemp(files, temp, bytes), Temp(temp));
            FilesOk(after) && AddsOnly(files, after, Temp(temp)) && after.names == files.names
  {
    TempIsWritten(files, temp, bytes);
    assert files.names[Temp(temp) := files.next] - {Temp(temp)} == files.names;
  }

  /** At most a temporary file was left behind, and only if removing it failed. */
  ghost predicate Litter(before: Files, after: Files, removalFails: bool) {
    && FilesOk(after)
    && (removalFails || after.names == before.names)
    && exists temp :: AddsOnly(before, after, Temp(temp))
  }

  lemma TempIsLitter(files: Files, temp: int, bytes: seq<Byte>, removalFails: bool)
    requires FilesOk(files) && Temp(temp) !in files.names
    ensures var written := WithTemp(files, temp, bytes);
            Litter(files, if removalFails then written else Removed(written, Temp(temp)), removalFails)
  {
    TempIsWritten(files, temp, bytes);
    TempIsRemoved(files, temp, bytes);
  }

  lemma NothingIsLitter(files: Files, removalFails: bool)
    requires FilesOk(files)
    ensures Litter(files, files, removalFails)
  {
    assert AddsOnly(files, files, Temp(0));
  }

  // ----- creating the key

  predicate SomeFree(temps: seq<int>, names: map<Name, int>) {
    exists i :: 0 <= i < |temps| && Temp(temps[i]) !in names
  }

  /** What keeps a complete temporary file from being written, if anything. Each of the
      sixteen attempts meets the same failure to open. */
  function TempFailure(names: map<Name, int>, temps: seq<int>, faults: Faults): Option<Kind> {
    if faults.makeDirectory.Some? then faults.makeDirectory
    else if faults.open.Some? then faults.open
    else if !SomeFree(temps, names) then Some(AlreadyExists)
    else if faults.write.Some? then faults.write
    else faults.sync
  }

  /** The name of a complete temporary file, or the reason there is none. */
  method WriteTempKey(fs: FileSystem, key: seq<Byte>, temps: seq<int>, faults: Faults) returns (r: Result<int, KeyError>)
    requires FilesOk(fs.files) && |temps| == ATTEMPTS_MAX
    modifies fs
    ensures r.Ok? ==> Temp(r.value) !in old(fs.files).names && fs.files == WithTemp(old(fs.files), r.value, key)
    ensures r.Err? ==> r.error.Io? && Litter(old(fs.files), fs.files, faults.removal)
    ensures r.Ok? <==> TempFailure(old(fs.files).names, temps, faults).None?
    ensures r.Err? ==> Some(r.error.kind) == TempFailure(old(fs.files).names, temps, faults)
  {
    NothingIsLitter(fs.files, faults.removal);
    if faults.makeDirectory.Some? {
      return Err(Io(faults.makeDirectory.value));
    }
    for i := 0 to ATTEMPTS_MAX
      invariant fs.files == old(fs.files)
      invariant faults.open.None? ==> forall j :: 0 <= j < i ==> Temp(temps[j]) in fs.files.names
      invariant faults.open.Some? && i > 0 ==> faults.open.value == AlreadyExists
    {
      var temp := temps[i];
      var file := fs.CreateNew(Temp(temp), faults.open);
      if file.Err? {
        if file.error == AlreadyExists {
          continue;
        }
        return Err(Io(file.error));
      }
      if faults.write.Some? {
        var written := key[..Min(faults.written, |key|)];
        TempIsLitter(old(fs.files), temp, written, faults.removal);
        fs.Append(file.value, written);
        fs.Remove(Temp(temp), faults.removal);
        return Err(Io(faults.write.value));
      }
      fs.Append(file.value, key);
      if faults.sync.Some? {
        TempIsLitter(old(fs.files), temp, key, faults.removal);
        fs.Remove(Temp(temp), faults.removal);
        return Err(Io(faults.sync.value));
      }
      return Ok(temp);
    }
    return Err(Io(AlreadyExists));
  }

  /** What an attempt to publish a key may do to the files: nothing but litter, or
      bind the target to the whole key. */
  ghost predicate Published(before: Files, after: Files, key: seq<Byte>, removalFails: bool) {
    && FilesOk(after)
    && ContentAt(after, Target) == Some(key)
    && (forall n <- before.names :: n != Target ==> n in after.names && ContentAt(after, n) == ContentAt(before, n))
    && (removalFails || after.names.Keys == before.names.Keys + {Target})
  }

  lemma LinkPublishes(files: Files, temp: int, key: seq<Byte>, removalFails: bool)
    requires FilesOk(files) && Temp(temp) !in files.names && Target !in files.names
    ensures var linked := Linked(WithTemp(files, temp, key), Temp(temp), Target);
            Published(files, if removalFails then linked else Removed(linked, Temp(temp)), key, removalFails)
  {
    TempIsWritten(files, temp, key);
  }

  lemma RenamePublishes(files: Files, temp: int, key: seq<Byte>, removalFails: bool)
    requires FilesOk(files) && Temp(temp) !in files.names
    ensures var renamed := Removed(Linked(WithTemp(files, temp, key), Temp(temp), Target), Temp(temp));
            Published(files, if removalFails then renamed else Removed(renamed, Temp(temp)), key, removalFails)
  {
    TempIsWritten(files, temp, key);
  }

  function Reported(failure: Option<Kind>): Result<(), KeyError> {
    match failure
    case None => Ok(())
    case Some(kind) => Err(Io(kind))
  }

  /** Whether the target is bound to a new key. */
  predicate Creates(names: map<Name, int>, temps: seq<int>, faults: Faults) {
    TempFailure(names, temps, faults).None? && faults.publish.None? && Target !in names
  }

  /** What keeps a key from being created, if anything. */
  function CreateFailure(names: map<Name, int>, temps: seq<int>, faults: Faults): Option<Kind> {
    if TempFailure(names, temps, faults).Some? then TempFailure(names, temps, faults)
    else if faults.publish.Some? then faults.publish
    else if Target in names then Some(AlreadyExists)
    else faults.syncDirectory
  }

  /** Publishes the whole key, and only where there was no key file. */
  method SaveKeyExclusive(fs: FileSystem, key: seq<Byte>, temps: seq<int>, faults: Faults)
    returns (r: Result<(), KeyError>)
    requires FilesOk(fs.files) && |temps| == ATTEMPTS_MAX
    modifies fs
    ensures r == Reported(CreateFailure(old(fs.files).names, temps, faults))
    ensures if Creates(old(fs.files).names, temps, faults) then Published(old(fs.files), fs.files, key, faults.removal)
            else Litter(old(fs.files), fs.files, faults.removal)
  {
    var temp := WriteTempKey(fs, key, temps, faults);
    if temp.Err? {
      return Err(temp.error);
    }
    TempIsLitter(old(fs.files), temp.value, key, faults.removal);
    var linked := fs.HardLink(Temp(temp.value), Target, faults.publish);
    if linked.Some? {
      fs.Remove(Temp(temp.value), faults.removal);
      return Err(Io(linked.value));
    }
    LinkPublishes(old(fs.files), temp.value, key, faults.removal);
    fs.Remove(Temp(temp.value), faults.removal);
    r := if faults.syncDirectory.Some? then Err(Io(faults.syncDirectory.value)) else Ok(());
  }

  /** Replaces the key file as a whole, or leaves it as it was. */
  method SaveKeyReplace(fs: FileSystem, key: seq<Byte>, temps: seq<int>, faults: Faults)
    returns (r: Result<(), KeyError>)
    requires FilesOk(fs.files) && |temps| == ATTEMPTS_MAX
    modifies fs
    ensures var failure := TempFailure(old(fs.files).names, temps, faults);
            r == Reported(if failure.Some? then failure
                          else if faults.publish.Some? then faults.publish else faults.syncDirectory)
    ensures if TempFailure(old(fs.files).names, temps, faults).None? && faults.publish.None?
            then Published(old(fs.files), fs.files, key, faults.removal)
            else Litter(old(fs.files), fs.files, faults.removal)
  {
    var temp := WriteTempKey(fs, key, temps, faults);
    if temp.Err? {
      return Err(temp.error);
    }
    TempIsLitter(old(fs.files), temp.value, key, faults.removal);
    RenamePublishes(old(fs.files), temp.value, key, faults.removal);
    var renamed := fs.Rename(Temp(temp.value), Target, faults.publish);
    fs.Remove(Temp(temp.value), faults.removal);
    if renamed.Some? {
      return Err(Io(renamed.value));
    }
    r := if faults.syncDirectory.Some? then Err(Io(faults.syncDirectory.value)) else Ok(());
  }

  method LoadKey(fs: FileSystem, fault: Option<Kind>) returns (r: Outcome)
    ensures fault.None? ==> r == Loaded(ContentAt(fs.files, Target))
    ensures r.Ok? ==> ContentAt(fs.files, Target) == Some(r.value) && |r.value| == KEY_LENGTH
    ensures fault.Some? ==> r == Err(Io(fault.value))
  {
    var bytes := fs.Read(Target, fault);
    if bytes.Err? {
      return Err(Io(bytes.error));
    }
    r := if |bytes.value| != KEY_LENGTH then Err(InvalidLength(|bytes.value|)) else Ok(bytes.value);
  }

  /** Whatever fails: a returned key is the one in the file, an existing file is never
      touched, and an absent one stays absent or holds the whole generated key. */
  method LoadOrGenerateKey(fs: FileSystem, key: seq<Byte>, temps: seq<int>, faults: Faults) returns (r: Outcome)
    requires FilesOk(fs.files) && |temps| == ATTEMPTS_MAX && |key| == KEY_LENGTH
    modifies fs
    ensures FilesOk(fs.files)
    ensures r.Ok? ==> ContentAt(fs.files, Target) == Some(r.value) && |r.value| == KEY_LENGTH
    ensures Target in old(fs.files).names ==> ContentAt(fs.files, Target) == ContentAt(old(fs.files), Target)
    ensures ContentAt(fs.files, Target) in {ContentAt(old(fs.files), Target), Some(key)}
    ensures forall n <- old(fs.files).names :: ContentAt(fs.files, n) == ContentAt(old(fs.files), n)
    ensures !faults.removal ==> fs.files.names.Keys <= old(fs.files).names.Keys + {Target}
    ensures var read := if faults.read.Some? then Err(Io(faults.read.value)) else Loaded(ContentAt(old(fs.files), Target));
            r == if read != Err(Io(NotFound)) then read
                 else match CreateFailure(old(fs.files).names, temps, faults)
                   case None => Ok(key)
                   case Some(AlreadyExists) =>
                     if faults.reread.Some? then Err(Io(faults.reread.value)) else Loaded(ContentAt(fs.files, Target))
                   case Some(kind) => Err(Io(kind))
    ensures faults.read.Some? && faults.read.value != NotFound ==> fs.files == old(fs.files)
    ensures faults.read.None? && Target !in old(fs.files).names && Creates(old(fs.files).names, temps, faults) ==>
              ContentAt(fs.files, Target) == Some(key)
  {
    var loaded := LoadKey(fs, faults.read);
    if loaded != Err(Io(NotFound)) {
      return loaded;
    }
    var saved := SaveKeyExclusive(fs, key, temps, faults);
    if saved.Ok? {
      return Ok(key);
    } else if saved == Err(Io(AlreadyExists)) {
      r := LoadKey(fs, faults.reread);
    } else {
      r := Err(saved.error);
    }
  }
}
