/** Any number of concurrent callers of `load_or_generate_key` on one path, each free to
    fail or crash at every file operation. One step is one file operation. */
module KeyFileRuns {
  import opened Prelude
  import opened Bytes
  import opened KeyFile

  type CallerId = int

  datatype Next = Return(outcome: Outcome) | Reload

  datatype Caller =
    | Called
    // generate_key_exclusive: the key is drawn, the directory comes next
    | Drawn(key: seq<Byte>)
    | Naming(key: seq<Byte>, attempts: int)
    // the open file and its temporary name
    | Writing(key: seq<Byte>, temp: int, file: int, written: int)
    | Syncing(key: seq<Byte>, temp: int, file: int)
    | Linking(key: seq<Byte>, temp: int, file: int)
    | SyncingParent(key: seq<Byte>, temp: int)
    // the temporary name is about to be removed
    | Dropping(temp: int, next: Next)
    | Reloading
    | Returned(outcome: Outcome)
    | Crashed

  /** All but the files and the callers is history: the key each caller drew, the
      temporary names whose owner crashed or could not remove them, and the callers
      that met sixteen taken names in a row. */
  datatype State = State(
    files: Files, callers: map<CallerId, Caller>, drawn: map<CallerId, seq<Byte>>, litter: set<int>,
    exhausted: set<CallerId>)

  datatype Action =
    | Call(c: CallerId)
    | Read(c: CallerId, key: seq<Byte>)
    | MakeDirectory(c: CallerId)
    | Open(c: CallerId, temp: int)
    | Write(c: CallerId, count: int)
    | Sync(c: CallerId)
    | Link(c: CallerId)
    | SyncParent(c: CallerId)
    | Drop(c: CallerId, fails: bool)
    | Fail(c: CallerId, kind: Kind, key: seq<Byte>)
    | Crash(c: CallerId)

  function Init(files: Files): State {
    State(files, map[], map[], {}, {})
  }

  function Put(s: State, c: CallerId, caller: Caller): State {
    s.(callers := s.callers[c := caller])
  }

  /** `load_or_generate_key` after the first read. */
  function FirstRead(s: State, c: CallerId, outcome: Outcome, key: seq<Byte>): State {
    if outcome != Err(Io(NotFound)) then Put(s, c, Returned(outcome))
    else if |key| != KEY_LENGTH then s
    else Put(s.(drawn := s.drawn[c := key]), c, Drawn(key))
  }

  /** A lost race loads the winner's key; any other failure is returned. */
  function AfterFailure(kind: Kind): Next {
    if kind == AlreadyExists then Reload else Return(Err(Io(kind)))
  }

  function Continue(next: Next): Caller {
    match next
    case Return(outcome) => Returned(outcome)
    case Reload => Reloading
  }

  function NextName(s: State, c: CallerId, key: seq<Byte>, attempts: int): State {
    if attempts < ATTEMPTS_MAX then Put(s, c, Naming(key, attempts))
    else Put(s.(exhausted := s.exhausted + {c}), c, Continue(AfterFailure(AlreadyExists)))
  }

  function Opened(s: State, c: CallerId, key: seq<Byte>, attempts: int, temp: int): State {
    if Temp(temp) in s.files.names then NextName(s, c, key, attempts + 1)
    else Put(s.(files := Created(s.files, Temp(temp))), c, Writing(key, temp, s.files.next, 0))
  }

  function Wrote(s: State, c: CallerId, key: seq<Byte>, temp: int, file: int, written: int, count: int): State {
    if !(0 <= written < written + count <= |key|) then s
    else Put(s.(files := Appended(s.files, file, key[written..written + count])), c,
             if written + count == |key| then Syncing(key, temp, file)
             else Writing(key, temp, file, written + count))
  }

  function LinkedTarget(s: State, c: CallerId, key: seq<Byte>, temp: int): State {
    if Target in s.files.names then Put(s, c, Dropping(temp, AfterFailure(AlreadyExists)))
    else if Temp(temp) !in s.files.names then Put(s, c, Dropping(temp, AfterFailure(NotFound)))
    else Put(s.(files := Linked(s.files, Temp(temp), Target)), c, SyncingParent(key, temp))
  }

  function Dropped(s: State, c: CallerId, temp: int, next: Next, fails: bool): State {
    if fails then Put(s.(litter := s.litter + {temp}), c, Continue(next))
    else Put(s.(files := Removed(s.files, Temp(temp))), c, Continue(next))
  }

  function Failed(s: State, c: CallerId, kind: Kind, key: seq<Byte>): State
    requires c in s.callers
  {
    match s.callers[c]
    case Called => FirstRead(s, c, Err(Io(kind)), key)
    case Drawn(_) => Put(s, c, Continue(AfterFailure(kind)))
    case Naming(drawn, attempts) =>
      if kind == AlreadyExists then NextName(s, c, drawn, attempts + 1) else Put(s, c, Returned(Err(Io(kind))))
    case Writing(_, temp, _, _) => Put(s, c, Dropping(temp, AfterFailure(kind)))
    case Syncing(_, temp, _) => Put(s, c, Dropping(temp, AfterFailure(kind)))
    case Linking(_, temp, _) => Put(s, c, Dropping(temp, AfterFailure(kind)))
    case SyncingParent(_, temp) => Put(s, c, Dropping(temp, AfterFailure(kind)))
    case Reloading => Put(s, c, Returned(Err(Io(kind))))
    case _ => s
  }

  function TempOf(caller: Caller): Option<int> {
    match caller
    case Writing(_, temp, _, _) => Some(temp)
    case Syncing(_, temp, _) => Some(temp)
    case Linking(_, temp, _) => Some(temp)
    case SyncingParent(_, temp) => Some(temp)
    case Dropping(temp, _) => Some(temp)
    case _ => None
  }

  function CrashNow(s: State, c: CallerId): State
    requires c in s.callers
  {
    if s.callers[c].Returned? then s
    else Put(s.(litter := s.litter + (if TempOf(s.callers[c]).Some? then {TempOf(s.callers[c]).value} else {})),
             c, Crashed)
  }

  function Step(s: State, a: Action): State {
    if a.Call? then if a.c in s.callers then s else Put(s, a.c, Called)
    else if a.c !in s.callers then s
    else
      var caller := s.callers[a.c];
      match a
      case Call(_) => s
      case Read(c, key) =>
        if caller.Called? then FirstRead(s, c, Loaded(ContentAt(s.files, Target)), key)
        else if caller.Reloading? then Put(s, c, Returned(Loaded(ContentAt(s.files, Target)))) else s
      case MakeDirectory(c) => if caller.Drawn? then Put(s, c, Naming(caller.key, 0)) else s
      case Open(c, temp) => if caller.Naming? then Opened(s, c, caller.key, caller.attempts, temp) else s
      case Write(c, count) =>
        if caller.Writing? then Wrote(s, c, caller.key, caller.temp, caller.file, caller.written, count) else s
      case Sync(c) => if caller.Syncing? then Put(s, c, Linking(caller.key, caller.temp, caller.file)) else s
      case Link(c) => if caller.Linking? then LinkedTarget(s, c, caller.key, caller.temp) else s
      case SyncParent(c) =>
        if caller.SyncingParent? then Put(s, c, Dropping(caller.temp, Return(Ok(caller.key)))) else s
      case Drop(c, fails) => if caller.Dropping? then Dropped(s, c, caller.temp, caller.next, fails) else s
      case Fail(c, kind, key) => Failed(s, c, kind, key)
      case Crash(c) => CrashNow(s, c)
  }

  function Exec(s: State, schedule: seq<Action>): State {
    if schedule == [] then s else Step(Exec(s, schedule[..|schedule| - 1]), Last(schedule))
  }

  // ----- what every step keeps

  /** The key a caller is bound to answer with. */
  function Answer(caller: Caller): Option<seq<Byte>> {
    match caller
    case SyncingParent(key, _) => Some(key)
    case Dropping(_, Return(Ok(key))) => Some(key)
    case Returned(Ok(key)) => Some(key)
    case _ => None
  }

  ghost predicate HeldOk(callers: map<CallerId, Caller>, names: map<Name, int>) {
    && (forall c <- callers :: TempOf(callers[c]).Some? ==> Temp(TempOf(callers[c]).value) in names)
    && (forall c, d :: c in callers && d in callers && c != d && TempOf(callers[c]).Some? && TempOf(callers[d]).Some? ==>
          TempOf(callers[c]).value != TempOf(callers[d]).value)
  }

  /** A file being written has its temporary name only. */
  ghost predicate FileOk(caller: Caller, files: Files) {
    match caller
    case Writing(key, temp, file, written) =>
      && 0 <= written < |key| && file in files.contents && files.contents[file] == key[..written]
      && Temp(temp) in files.names && files.names[Temp(temp)] == file
      && (forall n <- files.names :: files.names[n] == file ==> n == Temp(temp))
    case Syncing(key, temp, file) =>
      Temp(temp) in files.names && files.names[Temp(temp)] == file && ContentAt(files, Temp(temp)) == Some(key)
    case Linking(key, temp, file) =>
      Temp(temp) in files.names && files.names[Temp(temp)] == file && ContentAt(files, Temp(temp)) == Some(key)
    case _ => true
  }

  predicate KeyOk(c: CallerId, caller: Caller, drawn: map<CallerId, seq<Byte>>) {
    match caller
    case Drawn(key) => |key| == KEY_LENGTH && c in drawn && drawn[c] == key
    case Naming(key, _) => |key| == KEY_LENGTH && c in drawn && drawn[c] == key
    case Writing(key, _, _, _) => |key| == KEY_LENGTH && c in drawn && drawn[c] == key
    case Syncing(key, _, _) => |key| == KEY_LENGTH && c in drawn && drawn[c] == key
    case Linking(key, _, _) => |key| == KEY_LENGTH && c in drawn && drawn[c] == key
    case Called => c !in drawn
    case _ => true
  }

  predicate AttemptsOk(caller: Caller) {
    caller.Naming? ==> 0 <= caller.attempts < ATTEMPTS_MAX
  }

  ghost predicate AnswersOk(callers: map<CallerId, Caller>, files: Files) {
    forall c <- callers :: Answer(callers[c]).Some? ==>
      ContentAt(files, Target) == Answer(callers[c]) && |Answer(callers[c]).value| == KEY_LENGTH
  }

  ghost predicate CallersOk(callers: map<CallerId, Caller>, files: Files, drawn: map<CallerId, seq<Byte>>) {
    forall c <- callers :: FileOk(callers[c], files) && KeyOk(c, callers[c], drawn) && AttemptsOk(callers[c])
  }

  ghost predicate DrawnOk(callers: map<CallerId, Caller>, drawn: map<CallerId, seq<Byte>>) {
    forall c <- drawn :: c in callers && |drawn[c]| == KEY_LENGTH
  }

  ghost predicate Inv(s: State) {
    && FilesOk(s.files)
    && HeldOk(s.callers, s.files.names)
    && CallersOk(s.callers, s.files, s.drawn)
    && AnswersOk(s.callers, s.files)
    && DrawnOk(s.callers, s.drawn)
  }

  ghost predicate TargetKept(s: State, r: State) {
    Target in s.files.names ==> ContentAt(r.files, Target) == ContentAt(s.files, Target)
  }

  /** A caller moves on without touching the files. */
  predicate MayBecome(s: State, c: CallerId, caller: Caller) {
    && (TempOf(caller).Some? ==> c in s.callers && TempOf(s.callers[c]) == TempOf(caller))
    && AttemptsOk(caller)
    && (Answer(caller).Some? ==>
          ContentAt(s.files, Target) == Answer(caller) && |Answer(caller).value| == KEY_LENGTH)
  }

  lemma PutKeepsInv(s: State, c: CallerId, caller: Caller)
    requires Inv(s) && MayBecome(s, c, caller) && FileOk(caller, s.files) && KeyOk(c, caller, s.drawn)
    ensures Inv(Put(s, c, caller))
  {
  }

  lemma DrawKeepsInv(s: State, c: CallerId, key: seq<Byte>)
    requires Inv(s) && c in s.callers && s.callers[c].Called? && |key| == KEY_LENGTH
    ensures Inv(Put(s.(drawn := s.drawn[c := key]), c, Drawn(key)))
  {
  }

  lemma FirstReadKeepsInv(s: State, c: CallerId, outcome: Outcome, key: seq<Byte>)
    requires Inv(s) && c in s.callers && s.callers[c].Called?
    requires outcome.Ok? ==> outcome == Loaded(ContentAt(s.files, Target))
    ensures Inv(FirstRead(s, c, outcome, key))
  {
    if outcome != Err(Io(NotFound)) {
      PutKeepsInv(s, c, Returned(outcome));
    } else if |key| == KEY_LENGTH {
      DrawKeepsInv(s, c, key);
    }
  }

  lemma ContinueKeepsInv(s: State, c: CallerId, kind: Kind)
    requires Inv(s)
    ensures Inv(Put(s, c, Continue(AfterFailure(kind))))
  {
    PutKeepsInv(s, c, Continue(AfterFailure(kind)));
  }

  lemma NextNameKeepsInv(s: State, c: CallerId)
    requires Inv(s) && c in s.callers && s.callers[c].Naming?
    ensures Inv(NextName(s, c, s.callers[c].key, s.callers[c].attempts + 1))
  {
    var caller := s.callers[c];
    if caller.attempts + 1 < ATTEMPTS_MAX {
      PutKeepsInv(s, c, Naming(caller.key, caller.attempts + 1));
    } else {
      ContinueKeepsInv(s, c, AlreadyExists);
    }
  }

  lemma CreateKeepsInv(s: State, c: CallerId, temp: int)
    requires Inv(s) && c in s.callers && s.callers[c].Naming? && Temp(temp) !in s.files.names
    ensures Inv(Put(s.(files := Created(s.files, Temp(temp))), c, Writing(s.callers[c].key, temp, s.files.next, 0)))
    ensures TargetKept(s, s.(files := Created(s.files, Temp(temp))))
  {
  }

  lemma WriteKeepsInv(s: State, c: CallerId, count: int)
    requires Inv(s) && c in s.callers && s.callers[c].Writing?
    ensures var w := s.callers[c];
            var r := Wrote(s, c, w.key, w.temp, w.file, w.written, count);
            Inv(r) && TargetKept(s, r)
  {
    var w := s.callers[c];
    if 0 <= w.written < w.written + count <= |w.key| {
      assert w.key[..w.written] + w.key[w.written..w.written + count] == w.key[..w.written + count];
      assert w.key[..|w.key|] == w.key;
    }
  }

  lemma LinkKeepsInv(s: State, c: CallerId)
    requires Inv(s) && c in s.callers && s.callers[c].Linking?
    ensures var r := LinkedTarget(s, c, s.callers[c].key, s.callers[c].temp);
            Inv(r) && TargetKept(s, r)
  {
  }

  lemma DropKeepsInv(s: State, c: CallerId, fails: bool)
    requires Inv(s) && c in s.callers && s.callers[c].Dropping?
    ensures var r := Dropped(s, c, s.callers[c].temp, s.callers[c].next, fails);
            Inv(r) && TargetKept(s, r)
  {
  }

  lemma FailKeepsInv(s: State, c: CallerId, kind: Kind, key: seq<Byte>)
    requires Inv(s) && c in s.callers
    ensures Inv(Failed(s, c, kind, key))
  {
    match s.callers[c]
    case Called => FirstReadKeepsInv(s, c, Err(Io(kind)), key);
    case Drawn(_) => ContinueKeepsInv(s, c, kind);
    case Naming(_, _) =>
      if kind == AlreadyExists {
        NextNameKeepsInv(s, c);
      } else {
        PutKeepsInv(s, c, Returned(Err(Io(kind))));
      }
    case Writing(_, temp, _, _) => PutKeepsInv(s, c, Dropping(temp, AfterFailure(kind)));
    case Syncing(_, temp, _) => PutKeepsInv(s, c, Dropping(temp, AfterFailure(kind)));
    case Linking(_, temp, _) => PutKeepsInv(s, c, Dropping(temp, AfterFailure(kind)));
    case SyncingParent(_, temp) => PutKeepsInv(s, c, Dropping(temp, AfterFailure(kind)));
    case Reloading => PutKeepsInv(s, c, Returned(Err(Io(kind))));
    case _ =>
  }

  lemma CrashKeepsInv(s: State, c: CallerId)
    requires Inv(s) && c in s.callers
    ensures Inv(CrashNow(s, c))
  {
    PutKeepsInv(s, c, Crashed);
  }

  lemma StepKeepsInv(s: State, a: Action)
    requires Inv(s)
    ensures Inv(Step(s, a)) && TargetKept(s, Step(s, a))
  {
    if a.Call? {
      if a.c !in s.callers { PutKeepsInv(s, a.c, Called); }
    } else if a.c in s.callers {
      var caller := s.callers[a.c];
      match a
      case Call(_) =>
      case Read(c, key) =>
        if caller.Called? {
          FirstReadKeepsInv(s, c, Loaded(ContentAt(s.files, Target)), key);
        } else if caller.Reloading? {
          PutKeepsInv(s, c, Returned(Loaded(ContentAt(s.files, Target))));
        }
      case MakeDirectory(c) => if caller.Drawn? { PutKeepsInv(s, c, Naming(caller.key, 0)); }
      case Open(c, temp) =>
        if caller.Naming? {
          if Temp(temp) in s.files.names { NextNameKeepsInv(s, c); } else { CreateKeepsInv(s, c, temp); }
        }
      case Write(c, count) => if caller.Writing? { WriteKeepsInv(s, c, count); }
      case Sync(c) => if caller.Syncing? { PutKeepsInv(s, c, Linking(caller.key, caller.temp, caller.file)); }
      case Link(c) => if caller.Linking? { LinkKeepsInv(s, c); }
      case SyncParent(c) =>
        if caller.SyncingParent? { PutKeepsInv(s, c, Dropping(caller.temp, Return(Ok(caller.key)))); }
      case Drop(c, fails) => if caller.Dropping? { DropKeepsInv(s, c, fails); }
      case Fail(c, kind, key) => FailKeepsInv(s, c, kind, key);
      case Crash(c) => CrashKeepsInv(s, c);
    }
  }

  lemma {:induction false} ExecKeepsInv(initial: Files, schedule: seq<Action>)
    requires FilesOk(initial)
    ensures Inv(Exec(Init(initial), schedule))
  {
    if schedule != [] {
      ExecKeepsInv(initial, schedule[..|schedule| - 1]);
      StepKeepsInv(Exec(Init(initial), schedule[..|schedule| - 1]), Last(schedule));
    }
  }

  // ----- results

  function KeyFileAfter(initial: Files, schedule: seq<Action>): Option<seq<Byte>> {
    ContentAt(Exec(Init(initial), schedule).files, Target)
  }

  /** Once there is a key file, no caller, failure or crash ever changes it. */
  lemma {:induction false} KeyFileNeverChanges(initial: Files, before: seq<Action>, after: seq<Action>)
    requires FilesOk(initial) && KeyFileAfter(initial, before).Some?
    ensures KeyFileAfter(initial, before + after) == KeyFileAfter(initial, before)
  {
    if after == [] {
      assert before + after == before;
    } else {
      var shorter := before + after[..|after| - 1];
      assert (before + after)[..|before + after| - 1] == shorter && Last(before + after) == Last(after);
      KeyFileNeverChanges(initial, before, after[..|after| - 1]);
      ExecKeepsInv(initial, shorter);
      StepKeepsInv(Exec(Init(initial), shorter), Last(after));
    }
  }

  /** Whoever gets a key gets the one in the file. */
  lemma AnswersAreStored(initial: Files, schedule: seq<Action>, c: CallerId)
    requires FilesOk(initial) && c in Exec(Init(initial), schedule).callers
    requires var caller := Exec(Init(initial), schedule).callers[c]; caller.Returned? && caller.outcome.Ok?
    ensures KeyFileAfter(initial, schedule) == Some(Exec(Init(initial), schedule).callers[c].outcome.value)
    ensures |Exec(Init(initial), schedule).callers[c].outcome.value| == KEY_LENGTH
  {
    ExecKeepsInv(initial, schedule);
    var caller := Exec(Init(initial), schedule).callers[c];
    assert Answer(caller) == Some(caller.outcome.value);
  }

  /** All successful callers get the same key, however they interleave, fail and crash. */
  lemma AnswersAgree(initial: Files, schedule: seq<Action>, c: CallerId, d: CallerId)
    requires FilesOk(initial)
    requires var callers := Exec(Init(initial), schedule).callers;
             && c in callers && callers[c].Returned? && callers[c].outcome.Ok?
             && d in callers && callers[d].Returned? && callers[d].outcome.Ok?
    ensures Exec(Init(initial), schedule).callers[c].outcome == Exec(Init(initial), schedule).callers[d].outcome
  {
    AnswersAreStored(initial, schedule, c);
    AnswersAreStored(initial, schedule, d);
  }

  /** A file of another length is never overwritten and never answered with. */
  lemma WrongLengthIsNeverAnswered(initial: Files, schedule: seq<Action>, c: CallerId)
    requires FilesOk(initial) && ContentAt(initial, Target).Some? && |ContentAt(initial, Target).value| != KEY_LENGTH
    requires c in Exec(Init(initial), schedule).callers
    ensures KeyFileAfter(initial, schedule) == ContentAt(initial, Target)
    ensures var caller := Exec(Init(initial), schedule).callers[c]; caller.Returned? ==> caller.outcome.Err?
  {
    KeyFileNeverChanges(initial, [], schedule);
    assert [] + schedule == schedule;
    var caller := Exec(Init(initial), schedule).callers[c];
    if caller.Returned? && caller.outcome.Ok? {
      AnswersAreStored(initial, schedule, c);
    }
  }

  // ----- where the key file comes from

  predicate DrawnBy(c: CallerId, content: Option<seq<Byte>>, drawn: map<CallerId, seq<Byte>>) {
    c in drawn && content == Some(drawn[c]) && |drawn[c]| == KEY_LENGTH
  }

  /** The content is the whole key that one caller drew. */
  ghost predicate WholeKey(content: Option<seq<Byte>>, drawn: map<CallerId, seq<Byte>>) {
    exists c :: DrawnBy(c, content, drawn)
  }

  lemma LinkBindsWholeKey(s: State, c: CallerId)
    requires Inv(s) && c in s.callers && s.callers[c].Linking? && Target !in s.files.names
    ensures var r := LinkedTarget(s, c, s.callers[c].key, s.callers[c].temp);
            r.drawn == s.drawn && DrawnBy(c, ContentAt(r.files, Target), s.drawn)
  {
  }

  /** Drawn keys stay, and only a link brings the key file into being. */
  predicate Undrawn(s: State, r: State) {
    && (Target in r.files.names ==> Target in s.files.names)
    && (forall c <- s.drawn :: c in r.drawn && r.drawn[c] == s.drawn[c])
  }

  lemma OthersDoNotBind(s: State, a: Action)
    requires Inv(s) && !(a.Link? && a.c in s.callers && s.callers[a.c].Linking?)
    ensures Undrawn(s, Step(s, a))
  {
  }

  lemma StepKeepsWholeKey(s: State, a: Action)
    requires Inv(s) && (Target in s.files.names ==> WholeKey(ContentAt(s.files, Target), s.drawn))
    ensures Target in Step(s, a).files.names ==> WholeKey(ContentAt(Step(s, a).files, Target), Step(s, a).drawn)
  {
    StepKeepsInv(s, a);
    if a.Link? && a.c in s.callers && s.callers[a.c].Linking? {
      if Target !in s.files.names {
        LinkBindsWholeKey(s, a.c);
      }
    } else {
      OthersDoNotBind(s, a);
      if Target in Step(s, a).files.names {
        var c :| DrawnBy(c, ContentAt(s.files, Target), s.drawn);
        assert DrawnBy(c, ContentAt(Step(s, a).files, Target), Step(s, a).drawn);
      }
    }
  }

  /** Starting from no key file, there is none or it holds the whole key of one caller:
      it is never partly written, whatever fails or crashes. */
  lemma {:induction false} KeyFileIsAllOrNothing(initial: Files, schedule: seq<Action>)
    requires FilesOk(initial) && Target !in initial.names
    ensures KeyFileAfter(initial, schedule).Some? ==>
              WholeKey(KeyFileAfter(initial, schedule), Exec(Init(initial), schedule).drawn)
  {
    ExecKeepsInv(initial, schedule);
    if schedule != [] {
      KeyFileIsAllOrNothing(initial, schedule[..|schedule| - 1]);
      ExecKeepsInv(initial, schedule[..|schedule| - 1]);
      StepKeepsWholeKey(Exec(Init(initial), schedule[..|schedule| - 1]), Last(schedule));
    }
  }

  // ----- temporary files

  ghost predicate Held(callers: map<CallerId, Caller>, temp: int) {
    exists c <- callers :: TempOf(callers[c]) == Some(temp)
  }

  ghost predicate Explained(s: State, initial: Files, temp: int) {
    Temp(temp) in s.files.names ==> Temp(temp) in initial.names || temp in s.litter || Held(s.callers, temp)
  }

  lemma StepExplains(s: State, a: Action, initial: Files, temp: int)
    requires Explained(s, initial, temp)
    ensures Explained(Step(s, a), initial, temp)
  {
    var r := Step(s, a);
    if Temp(temp) in r.files.names && Temp(temp) !in initial.names && temp !in r.litter {
      if Temp(temp) in s.files.names {
        var c :| c in s.callers && TempOf(s.callers[c]) == Some(temp);
        assert c in r.callers && TempOf(r.callers[c]) == Some(temp);
      } else {
        assert a.c in r.callers && TempOf(r.callers[a.c]) == Some(temp);
      }
    }
  }

  /** Every temporary name left was there before, or belongs to a caller that is still
      at work, crashed, or failed to remove it. */
  lemma {:induction false} NoOtherLitter(initial: Files, schedule: seq<Action>, temp: int)
    ensures Explained(Exec(Init(initial), schedule), initial, temp)
  {
    if schedule != [] {
      NoOtherLitter(initial, schedule[..|schedule| - 1], temp);
      StepExplains(Exec(Init(initial), schedule[..|schedule| - 1]), Last(schedule), initial, temp);
    }
  }

  // ----- runs in which no operation fails by itself

  predicate Complete(files: Files) {
    Target in files.names ==> ContentAt(files, Target).Some? && |ContentAt(files, Target).value| == KEY_LENGTH
  }

  /** Without failures of its own a caller loses only a race that somebody has won. */
  predicate CalmCaller(c: CallerId, caller: Caller, bound: bool, exhausted: set<CallerId>) {
    match caller
    case Dropping(_, Reload) => bound
    case Dropping(_, Return(outcome)) => outcome.Ok?
    case Reloading => bound || c in exhausted
    case Returned(outcome) => outcome.Ok? || c in exhausted
    case _ => true
  }

  ghost predicate Calm(s: State) {
    && Complete(s.files)
    && forall c <- s.callers :: CalmCaller(c, s.callers[c], Target in s.files.names, s.exhausted)
  }

  predicate NoFaults(schedule: seq<Action>) {
    forall i :: 0 <= i < |schedule| ==> !schedule[i].Fail?
  }

  lemma LinkStaysCalm(s: State, c: CallerId)
    requires Inv(s) && Calm(s) && c in s.callers && s.callers[c].Linking?
    ensures Calm(LinkedTarget(s, c, s.callers[c].key, s.callers[c].temp))
  {
  }

  lemma OthersStayCalm(s: State, a: Action)
    requires Inv(s) && Calm(s) && !a.Fail? && !(a.Link? && a.c in s.callers && s.callers[a.c].Linking?)
    ensures Complete(Step(s, a).files) ==> Calm(Step(s, a))
  {
  }

  lemma StaysCalm(s: State, a: Action)
    requires Inv(s) && Calm(s) && !a.Fail?
    ensures Calm(Step(s, a))
  {
    if a.Link? && a.c in s.callers && s.callers[a.c].Linking? {
      LinkStaysCalm(s, a.c);
    } else {
      StepKeepsInv(s, a);
      OthersDoNotBind(s, a);
      OthersStayCalm(s, a);
    }
  }

  lemma {:induction false} NoFaultsMeansCalm(initial: Files, schedule: seq<Action>)
    requires FilesOk(initial) && Complete(initial) && NoFaults(schedule)
    ensures Calm(Exec(Init(initial), schedule))
  {
    if schedule != [] {
      NoFaultsMeansCalm(initial, schedule[..|schedule| - 1]);
      ExecKeepsInv(initial, schedule[..|schedule| - 1]);
      StaysCalm(Exec(Init(initial), schedule[..|schedule| - 1]), Last(schedule));
    }
  }

  /** Where no operation fails by itself and the file is absent or complete, every caller
      that returns has the key in the file, but for one that met sixteen taken names.
      Crashes of others do not matter. */
  lemma OnlyExhaustedCallersFail(initial: Files, schedule: seq<Action>, c: CallerId)
    requires FilesOk(initial) && Complete(initial) && NoFaults(schedule)
    requires var s := Exec(Init(initial), schedule); c in s.callers && s.callers[c].Returned? && c !in s.exhausted
    ensures var outcome := Exec(Init(initial), schedule).callers[c].outcome;
            outcome.Ok? && KeyFileAfter(initial, schedule) == Some(outcome.value)
  {
    NoFaultsMeansCalm(initial, schedule);
    assert CalmCaller(c, Exec(Init(initial), schedule).callers[c], Target in Exec(Init(initial), schedule).files.names,
                      Exec(Init(initial), schedule).exhausted);
    AnswersAreStored(initial, schedule, c);
  }
}
