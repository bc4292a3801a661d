/** What a caller of `load_or_generate_key` answers from a given point on when no other
    caller takes a step, without a failure and with one. */
module KeyFileProgress {
  import opened Prelude
  import opened Bytes
  import opened KeyFile
  import opened KeyFileRuns

  /** The caller is where `caller` says and the files are as `files` says; the other
      callers are as before. */
  ghost predicate Now(s: State, r: State, c: CallerId, files: Files, caller: Caller) {
    r.files == files && r.callers == s.callers[c := caller]
  }

  function OpenAlone(s: State, c: CallerId, key: seq<Byte>, temp: int): State {
    Step(Step(Step(s, Read(c, key)), MakeDirectory(c)), Open(c, temp))
  }

  function WriteAlone(s: State, c: CallerId): State {
    Step(Step(s, Write(c, KEY_LENGTH)), Sync(c))
  }

  function PublishAlone(s: State, c: CallerId, removalFails: bool): State {
    Step(Step(Step(s, Link(c)), SyncParent(c)), Drop(c, removalFails))
  }

  lemma OpensAlone(s: State, c: CallerId, key: seq<Byte>, temp: int)
    requires c in s.callers && s.callers[c].Called? && |key| == KEY_LENGTH
    requires ContentAt(s.files, Target).None? && Temp(temp) !in s.files.names
    ensures Now(s, OpenAlone(s, c, key, temp), c, Created(s.files, Temp(temp)), Writing(key, temp, s.files.next, 0))
  {
    var drawn := Step(s, Read(c, key));
    assert drawn.callers == s.callers[c := Drawn(key)];
    var naming := Step(drawn, MakeDirectory(c));
    assert naming.callers == s.callers[c := Naming(key, 0)];
    assert Step(naming, Open(c, temp)).callers == s.callers[c := Writing(key, temp, s.files.next, 0)];
  }

  lemma WritesAlone(s: State, c: CallerId, key: seq<Byte>, temp: int, file: int)
    requires c in s.callers && s.callers[c] == Writing(key, temp, file, 0) && |key| == KEY_LENGTH
    ensures Now(s, WriteAlone(s, c), c, Appended(s.files, file, key), Linking(key, temp, file))
  {
    assert key[0..KEY_LENGTH] == key;
    var written := Step(s, Write(c, KEY_LENGTH));
    assert written.callers == s.callers[c := Syncing(key, temp, file)];
    assert Step(written, Sync(c)).callers == s.callers[c := Linking(key, temp, file)];
  }

  lemma PublishesAlone(s: State, c: CallerId, key: seq<Byte>, temp: int, file: int, removalFails: bool)
    requires c in s.callers && s.callers[c] == Linking(key, temp, file)
    requires Temp(temp) in s.files.names && Target !in s.files.names
    ensures var linked := Linked(s.files, Temp(temp), Target);
            Now(s, PublishAlone(s, c, removalFails), c, if removalFails then linked else Removed(linked, Temp(temp)),
                Returned(Ok(key)))
  {
    var linked := Step(s, Link(c));
    assert linked.callers == s.callers[c := SyncingParent(key, temp)];
    var synced := Step(linked, SyncParent(c));
    assert synced.callers == s.callers[c := Dropping(temp, Return(Ok(key)))];
    assert Step(synced, Drop(c, removalFails)).callers == s.callers[c := Returned(Ok(key))];
  }

  /** The caller has answered the key it drew, which the key file now holds; nothing else
      has a new name. */
  ghost predicate HasCreated(s: State, r: State, c: CallerId, key: seq<Byte>) {
    && r.callers == s.callers[c := Returned(Ok(key))]
    && Published(s.files, r.files, key, false)
  }

  lemma StagesCompose(s: State, open: State, written: State, r: State, c: CallerId, key: seq<Byte>, temp: int)
    requires FilesOk(s.files) && Target !in s.files.names && Temp(temp) !in s.files.names
    requires Now(s, open, c, Created(s.files, Temp(temp)), Writing(key, temp, s.files.next, 0))
    requires Now(open, written, c, Appended(open.files, s.files.next, key), Linking(key, temp, s.files.next))
    requires Temp(temp) in written.files.names
    requires Now(written, r, c, Removed(Linked(written.files, Temp(temp), Target), Temp(temp)), Returned(Ok(key)))
    ensures HasCreated(s, r, c, key)
  {
    LinkPublishes(s.files, temp, key, false);
  }

  lemma CalledCreates(s: State, c: CallerId, key: seq<Byte>, temp: int)
    requires FilesOk(s.files) && c in s.callers && s.callers[c].Called? && |key| == KEY_LENGTH
    requires Target !in s.files.names && Temp(temp) !in s.files.names
    ensures HasCreated(s, PublishAlone(WriteAlone(OpenAlone(s, c, key, temp), c), c, false), c, key)
  {
    var file := s.files.next;
    OpensAlone(s, c, key, temp);
    var open := OpenAlone(s, c, key, temp);
    WritesAlone(open, c, key, temp, file);
    var written := WriteAlone(open, c);
    PublishesAlone(written, c, key, temp, file, false);
    StagesCompose(s, open, written, PublishAlone(written, c, false), c, key, temp);
  }

  lemma CreatedFromBefore(s: State, called: State, r: State, c: CallerId, key: seq<Byte>)
    requires Now(s, called, c, s.files, Called) && HasCreated(called, r, c, key)
    ensures HasCreated(s, r, c, key)
  {
  }

  /** A caller that finds no key file, and a free temporary name, creates the file with the
      key it draws, answers it, and leaves no temporary name behind. */
  lemma CallersCreate(s: State, c: CallerId, key: seq<Byte>, temp: int)
    requires FilesOk(s.files) && c !in s.callers && |key| == KEY_LENGTH
    requires Target !in s.files.names && Temp(temp) !in s.files.names
    ensures HasCreated(s, PublishAlone(WriteAlone(OpenAlone(Step(s, Call(c)), c, key, temp), c), c, false), c, key)
  {
    var called := Step(s, Call(c));
    assert called == Put(s, c, Called);
    CalledCreates(called, c, key, temp);
    CreatedFromBefore(s, called, PublishAlone(WriteAlone(OpenAlone(called, c, key, temp), c), c, false), c, key);
  }

  /** A caller that finds a key file answers what is in it. */
  lemma CallersLoad(s: State, c: CallerId, key: seq<Byte>)
    requires c !in s.callers && ContentAt(s.files, Target).Some?
    ensures Step(Step(s, Call(c)), Read(c, key)) == Put(s, c, Returned(Loaded(ContentAt(s.files, Target))))
  {
    var called := Step(s, Call(c));
    assert called == Put(s, c, Called);
    var outcome := Returned(Loaded(ContentAt(s.files, Target)));
    assert Step(called, Read(c, key)) == Put(called, c, outcome);
    assert called.callers[c := outcome] == s.callers[c := outcome];
  }

  /** A caller that loses the race to link answers the key of the winner. */
  lemma LosersLoadTheWinner(s: State, c: CallerId, key: seq<Byte>, removalFails: bool)
    requires FilesOk(s.files) && c in s.callers && s.callers[c].Linking? && Target in s.files.names
    ensures var temp := s.callers[c].temp;
            var r := Step(Step(Step(s, Link(c)), Drop(c, removalFails)), Read(c, key));
            Now(s, r, c, if removalFails then s.files else Removed(s.files, Temp(temp)),
                Returned(Loaded(ContentAt(s.files, Target))))
  {
    var temp := s.callers[c].temp;
    var lost := Step(s, Link(c));
    assert lost.callers == s.callers[c := Dropping(temp, Reload)];
    var dropped := Step(lost, Drop(c, removalFails));
    assert dropped.callers == s.callers[c := Reloading];
    assert ContentAt(dropped.files, Target) == ContentAt(s.files, Target);
    assert Step(dropped, Read(c, key)).callers == s.callers[c := Returned(Loaded(ContentAt(s.files, Target)))];
  }

  /** A failure of an operation on the temporary file, the link or the directory removes the
      temporary name and is answered as it is, except that a name found taken has the
      caller load the key file. */
  lemma FailuresAreAnswered(s: State, c: CallerId, kind: Kind, key: seq<Byte>)
    requires c in s.callers && TempOf(s.callers[c]).Some? && !s.callers[c].Dropping?
    ensures var temp := TempOf(s.callers[c]).value;
            Now(s, Step(Step(s, Fail(c, kind, key)), Drop(c, false)), c, Removed(s.files, Temp(temp)),
                if kind == AlreadyExists then Reloading else Returned(Err(Io(kind))))
  {
    var temp := TempOf(s.callers[c]).value;
    var failed := Step(s, Fail(c, kind, key));
    assert failed == Put(s, c, Dropping(temp, AfterFailure(kind)));
    assert Step(failed, Drop(c, false)).callers == s.callers[c := Continue(AfterFailure(kind))];
  }

  /** A failure before there is a temporary file is answered as it is and touches nothing,
      except for the two kinds the code looks for: a first read that finds no file, and a
      directory or name found taken. */
  lemma EarlyFailuresAreAnswered(s: State, c: CallerId, kind: Kind, key: seq<Byte>)
    requires c in s.callers
    requires match s.callers[c]
             case Called => kind != NotFound
             case Drawn(_) => kind != AlreadyExists
             case Naming(_, _) => kind != AlreadyExists
             case Reloading => true
             case _ => false
    ensures Step(s, Fail(c, kind, key)) == Put(s, c, Returned(Err(Io(kind))))
  {
  }

  /** The sixteenth taken name has the caller load the key file; an earlier one has it try
      another name. */
  lemma TakenNamesAreRetried(s: State, c: CallerId, temp: int)
    requires c in s.callers && s.callers[c].Naming? && Temp(temp) in s.files.names
    ensures var attempts := s.callers[c].attempts + 1;
            Now(s, Step(s, Open(c, temp)), c, s.files,
                if attempts < 16 then Naming(s.callers[c].key, attempts) else Reloading)
  {
  }

  /** A crash ends a caller anywhere before it has returned, leaves the files as they are,
      and the caller takes no further step. */
  lemma CrashesExactly(s: State, c: CallerId, a: Action)
    requires c in s.callers && a.c == c
    ensures var r := Step(s, Crash(c));
            && r.files == s.files
            && r.callers == s.callers[c := if s.callers[c].Returned? then s.callers[c] else Crashed]
            && (r.callers[c].Crashed? ==> Step(r, a) == r)
  {
    var r := Step(s, Crash(c));
    assert s.callers[c := s.callers[c]] == s.callers;
    if r.callers[c].Crashed? && a.Crash? {
      assert TempOf(r.callers[c]).None?;
      assert r.litter + {} == r.litter;
      assert r.callers[c := Crashed] == r.callers;
    }
  }
}
