/** One private output directory: the key's ID and its secret, each a file written
    once. A write can fail and leave nothing, or any part of the value. */
module CiFiles {
  import opened Wrappers
  import opened CiShapes
  import opened CiRemote

  const MAX_RESPONSE := 65536

  datatype File = Absent | Holds(text: string)

  /** What a failed write leaves. */
  datatype Left = Nothing | APart(length: nat)

  /** The fate of making the directory ready, of the n-th write and of the n-th read. */
  datatype Disk = Disk(prepare: Option<Raw>, write: nat -> Option<Left>, read: nat -> Option<Raw>)

  /** The two files, and how often one of them was written and read. */
  datatype Shelf = Shelf(keyId: File, apiKey: File, puts: nat, gets: nat)

  /** Ready means empty. */
  function Prepared(disk: Disk, shelf: Shelf): Option<Raw> {
    if shelf.keyId != Absent || shelf.apiKey != Absent then Some(Credential) else disk.prepare
  }

  /** A file is never written over. */
  function Written(disk: Disk, puts: nat, file: File, value: string): (File, Option<Raw>) {
    if !OneValue(value) then (file, Some(Credential))
    else if file != Absent then (file, Some(Os))
    else
      match disk.write(puts)
      case None => (Holds(value), None)
      case Some(Nothing) => (Absent, Some(Os))
      case Some(APart(n)) => (Holds(if n < |value| then value[..n] else value), Some(Os))
  }

  /** Any one value is read, also a part of the one that was written: what it must look
      like is the caller's to check. */
  function ReadOf(disk: Disk, gets: nat, file: File): Result<string, Raw> {
    match file
    case Absent => Err(Os)
    case Holds(text) =>
      if !OneValue(text) || |text| > MAX_RESPONSE then Err(Credential)
      else if disk.read(gets).Some? then Err(disk.read(gets).value)
      else Ok(text)
  }

  class Directory {
    const disk: Disk
    var keyId: File
    var apiKey: File
    var puts: nat
    var gets: nat

    constructor (disk: Disk, keyId: File, apiKey: File)
      ensures this.disk == disk && View() == Shelf(keyId, apiKey, 0, 0)
    {
      this.disk := disk;
      this.keyId := keyId;
      this.apiKey := apiKey;
      puts, gets := 0, 0;
    }

    ghost function View(): Shelf
      reads this
    {
      Shelf(keyId, apiKey, puts, gets)
    }

    method Prepare() returns (fault: Option<Raw>)
      ensures fault == Prepared(disk, View())
      ensures fault == None <==> keyId == Absent && apiKey == Absent && disk.prepare == None
    {
      if keyId != Absent || apiKey != Absent {
        return Some(Credential);
      }
      fault := disk.prepare;
    }

    method Write(file: File, value: string) returns (after: File, fault: Option<Raw>)
      modifies this`puts
      ensures puts == old(puts) + 1 && (after, fault) == Written(disk, old(puts), file, value)
      ensures fault == None <==> OneValue(value) && file == Absent && disk.write(old(puts)) == None
      ensures fault == None ==> after == Holds(value)
      ensures after != file ==> file == Absent && after.Holds? && after.text <= value
      ensures fault == Some(Credential) <==> !OneValue(value)
      ensures fault != None ==> fault == Some(Credential) || fault == Some(Os)
    {
      puts := puts + 1;
      if !OneValue(value) {
        return file, Some(Credential);
      }
      if file != Absent {
        return file, Some(Os);
      }
      match disk.write(puts - 1)
      case None => after, fault := Holds(value), None;
      case Some(Nothing) => after, fault := Absent, Some(Os);
      case Some(APart(n)) => after, fault := Holds(if n < |value| then value[..n] else value), Some(Os);
    }

    method Read(file: File) returns (r: Result<string, Raw>)
      modifies this`gets
      ensures gets == old(gets) + 1 && r == ReadOf(disk, old(gets), file)
      ensures r.Ok? <==> file.Holds? && OneValue(file.text) && |file.text| <= MAX_RESPONSE
                         && disk.read(old(gets)) == None
      ensures r.Ok? ==> file == Holds(r.value)
    {
      gets := gets + 1;
      if file == Absent {
        return Err(Os);
      }
      if !OneValue(file.text) || |file.text| > MAX_RESPONSE {
        return Err(Credential);
      }
      var fault := disk.read(gets - 1);
      r := if fault.Some? then Err(fault.value) else Ok(file.text);
    }
  }
}

/** Creating the pair, and undoing it, as functions of what the service and the disks
    do: where each step leaves the keys, the requests and the files, and how it ends. */
module CiPairSpec {
  import opened Wrappers
  import opened CiShapes
  import opened CiRemote
  import opened CiFiles

  /** The service, and one directory. */
  datatype At = At(keys: map<string, Key>, sent: seq<Request>, shelf: Shelf)

  function FaultOf(fate: Fate): Option<Raw> {
    match fate
    case Converged(_) => None
    case Failed => Some(Credential)
    case Escapes(f) => Some(f)
  }

  function Minted(net: Net, at: At, name: string): (At, Result<Key, Raw>) {
    var m := Mint(net, at.keys, name, |at.sent|, 0);
    (at.(keys := m.keys, sent := at.sent + Same(CreateKey(name), m.count)), m.result)
  }

  function Revoking(net: Net, at: At, id: string): (At, Option<Raw>) {
    var course := RevokeCourse(net, id, |at.sent|);
    (at.(keys := RevokeKeys(net, at.keys, id, |at.sent|, |course.sent|), sent := at.sent + course.sent),
     FaultOf(course.fate))
  }

  /** The file with the ID, written. */
  function IdWritten(disk: Disk, at: At, id: string): (At, Option<Raw>) {
    var (file, fault) := Written(disk, at.shelf.puts, at.shelf.keyId, id);
    (at.(shelf := at.shelf.(keyId := file, puts := at.shelf.puts + 1)), fault)
  }

  function SecretWritten(disk: Disk, at: At, secret: string): (At, Option<Raw>) {
    var (file, fault) := Written(disk, at.shelf.puts, at.shelf.apiKey, secret);
    (at.(shelf := at.shelf.(apiKey := file, puts := at.shelf.puts + 1)), fault)
  }

  /** The ID on record, which must be a whole one. */
  function IdRead(disk: Disk, at: At): (At, Result<string, Raw>) {
    var r := ReadOf(disk, at.shelf.gets, at.shelf.keyId);
    (at.(shelf := at.shelf.(gets := at.shelf.gets + 1)),
     if r.Ok? && !KeyId(r.value) then Err(Credential) else r)
  }

  /** A completed sibling is revoked by its record, and never created again. */
  function RecordedRevoked(net: Net, disk: Disk, at: At): (At, Option<Raw>) {
    var (read, id) := IdRead(disk, at);
    if id.Err? then (read, Some(id.error)) else Revoking(net, read, id.value)
  }

  /** The exact key of one name is revoked, by its record or, when its creation left
      none, by the ID that the same idempotent POST answers with. */
  function NamedRevoked(net: Net, disk: Disk, at: At, name: string): (At, Option<Raw>) {
    if at.shelf.keyId != Absent then RecordedRevoked(net, disk, at)
    else
      var (minted, key) := Minted(net, at, name);
      if key.Err? then (minted, Some(key.error))
      else
        var (written, fault) := IdWritten(disk, minted, key.value.id);
        if fault.Some? then (written, fault) else Revoking(net, written, key.value.id)
  }

  function Asked(net: Net, at: At): (At, Option<Raw>) {
    (at.(sent := at.sent + [AskIdentity]), net.check(|at.sent|))
  }

  /** Making one key and keeping it: the part that is undone when it fails. */
  function Attempted(net: Net, disk: Disk, at: At, name: string): (At, Option<Raw>) {
    var (minted, key) := Minted(net, at, name);
    if key.Err? then (minted, Some(key.error))
    else
      var (written, fault) := IdWritten(disk, minted, key.value.id);
      if fault.Some? then (written, fault)
      else
        var (asked, refused) := Asked(net, written);
        if refused.Some? then (asked, refused) else SecretWritten(disk, asked, key.value.secret)
  }

  function KeyCreated(net: Net, disk: Disk, at: At, name: string): (At, Option<Fault>) {
    var unready := Prepared(disk, at.shelf);
    if unready.Some? then (at, Some(unready.value))
    else
      var (attempted, fault) := Attempted(net, disk, at, name);
      if fault == None then (attempted, None)
      else if fault == Some(Other) then (attempted, Some(Other))
      else
        var (undone, left) := NamedRevoked(net, disk, attempted, name);
        (undone, Some(if left == None then Credential else if left == Some(Other) then Other else Cleanup))
  }

  // --------------------------------------------------------------------- pairs

  /** The service, and both directories. */
  datatype Both = Both(keys: map<string, Key>, sent: seq<Request>, first: Shelf, second: Shelf)

  function Side(b: Both, i: nat): At {
    At(b.keys, b.sent, if i == 0 then b.first else b.second)
  }

  function Beside(b: Both, i: nat, at: At): Both {
    if i == 0 then Both(at.keys, at.sent, at.shelf, b.second) else Both(at.keys, at.sent, b.first, at.shelf)
  }

  /** Reading back what was kept, and comparing the two. */
  function Compared(d0: Disk, d1: Disk, b: Both): (Both, Option<Raw>) {
    var b1 := b.(first := b.first.(gets := b.first.gets + 1));
    var id0 := ReadOf(d0, b.first.gets, b.first.keyId);
    if id0.Err? then (b1, Some(id0.error))
    else
      var b2 := b1.(second := b1.second.(gets := b1.second.gets + 1));
      var id1 := ReadOf(d1, b1.second.gets, b.second.keyId);
      if id1.Err? then (b2, Some(id1.error))
      else
        var b3 := b2.(first := b2.first.(gets := b2.first.gets + 1));
        var key0 := ReadOf(d0, b2.first.gets, b.first.apiKey);
        if key0.Err? then (b3, Some(key0.error))
        else
          var b4 := b3.(second := b3.second.(gets := b3.second.gets + 1));
          var key1 := ReadOf(d1, b3.second.gets, b.second.apiKey);
          if key1.Err? then (b4, Some(key1.error))
          else (b4, if id0.value == id1.value || key0.value == key1.value then Some(Credential) else None)
  }

  /** The creations from the n-th on, and the comparison of what they kept. */
  function CreatedFrom(net: Net, disks: seq<Disk>, b: Both, names: seq<string>, n: nat): (Both, Option<Fault>, nat)
    requires |disks| == 2 && |names| == 2 && n <= 2
    decreases 2 - n
  {
    if n == 2 then
      var (after, fault) := Compared(disks[0], disks[1], b);
      (after, fault, 2)
    else
      var (at, fault) := KeyCreated(net, disks[n], Side(b, n), names[n]);
      if fault.Some? then (Beside(b, n, at), fault, n) else CreatedFrom(net, disks, Beside(b, n, at), names, n + 1)
  }

  datatype Outcome = CreatedPair | EveryKeyRevoked | NotConverged | Stopped(fault: Raw)

  /** The completed keys from the n-th on are revoked, each even when another one
      failed. */
  function UndoneFrom(net: Net, disks: seq<Disk>, b: Both, n: nat, completed: nat, converged: bool): (Both, Outcome)
    requires |disks| == 2 && n <= completed <= 2
    decreases completed - n
  {
    if n == completed then (b, if converged then EveryKeyRevoked else NotConverged)
    else
      var (at, fault) := RecordedRevoked(net, disks[n], Side(b, n));
      if fault == Some(Other) then (Beside(b, n, at), Stopped(Other))
      else UndoneFrom(net, disks, Beside(b, n, at), n + 1, completed, converged && fault == None)
  }

  function PairCreated(net: Net, disks: seq<Disk>, b: Both, names: seq<string>): (Both, Outcome)
    requires |disks| == 2 && |names| == 2
  {
    var (made, failed, completed) := CreatedFrom(net, disks, b, names, 0);
    if failed == None then (made, CreatedPair)
    else if failed == Some(Other) then (made, Stopped(Other))
    else UndoneFrom(net, disks, made, 0, completed, failed != Some(Cleanup))
  }
}

/** Creating the pair, and undoing it. */
module CiCreatePair {
  import opened Wrappers
  import opened CiShapes
  import opened CiRemote
  import opened CiFiles
  import opened CiPairSpec
  import CiNames

  /** Keys are only added under the run's names, and only lose their activity: the
      run's own keys, and a key that has the same ID as one of them. */
  ghost predicate Calmer(before: map<string, Key>, names: set<string>, after: map<string, Key>) {
    && before.Keys <= after.Keys <= before.Keys + names
    && (forall n :: n in before ==>
          && after[n].id == before[n].id && after[n].secret == before[n].secret
          && (after[n].active != before[n].active ==>
                before[n].active && exists m :: m in names && m in after && after[m].id == after[n].id))
  }

  lemma CalmerChains(a: map<string, Key>, b: map<string, Key>, c: map<string, Key>, names: set<string>,
                     more: set<string>)
    requires Calmer(a, names, b) && Calmer(b, more, c)
    ensures Calmer(a, names + more, c)
  {
  }

  lemma CalmPost(keys: map<string, Key>, name: string, after: map<string, Key>)
    requires Posted(keys, name, after)
    ensures Calmer(keys, {name}, after)
  {
  }

  lemma CalmSame(keys: map<string, Key>, names: set<string>)
    ensures Calmer(keys, names, keys)
  {
  }

  lemma CalmRevoke(keys: map<string, Key>, name: string)
    requires name in keys
    ensures Calmer(keys, {name}, Revoked(keys, keys[name].id)) && !Active(Revoked(keys, keys[name].id), name)
  {
  }

  function NameSet(names: seq<string>, n: nat): set<string>
    requires n <= |names|
  {
    set i | 0 <= i < n :: names[i]
  }

  /** What a step for one name adds to what a run may have led to. */
  lemma Chained(start: map<string, Key>, before: map<string, Key>, after: map<string, Key>, names: seq<string>, n: nat)
    requires n < |names| && Calmer(start, NameSet(names, n), before) && Calmer(before, {names[n]}, after)
    ensures Calmer(start, NameSet(names, n + 1), after)
  {
    assert NameSet(names, n + 1) == NameSet(names, n) + {names[n]};
    CalmerChains(start, before, after, NameSet(names, n), {names[n]});
  }

  lemma Calm(before: map<string, Key>, names: set<string>, after: map<string, Key>, name: string)
    requires Calmer(before, names, after)
    ensures name in before
            ==> name in after && after[name].id == before[name].id && after[name].secret == before[name].secret
    ensures name in before && Active(after, name) ==> Active(before, name)
    ensures name !in before && name !in names ==> name !in after
  {
  }

  lemma CalmStart(keys: map<string, Key>, names: seq<string>)
    ensures Calmer(keys, NameSet(names, 0), keys)
  {
  }

  /** What is recorded, when anything is, is a part of the ID of the key of that name. */
  ghost predicate Records(keys: map<string, Key>, name: string, file: File) {
    file.Holds? ==> name in keys && KeyId(keys[name].id) && file.text <= keys[name].id
  }

  /** What any step for one name can lead to. */
  twostate predicate StepFor(remote: Remote, name: string, most: nat)
    reads remote
  {
    && Calmer(old(remote.keys), {name}, remote.keys)
    && |old(remote.sent)| <= |remote.sent| <= |old(remote.sent)| + most
  }

  /** The service and one directory as they are now. */
  ghost function Now(remote: Remote, dir: Directory): At
    reads remote, dir
  {
    At(remote.keys, remote.sent, dir.View())
  }

  ghost function NowBoth(remote: Remote, dirs: seq<Directory>): Both
    requires |dirs| == 2
    reads remote, dirs
  {
    Both(remote.keys, remote.sent, dirs[0].View(), dirs[1].View())
  }

  ghost function Disks(dirs: seq<Directory>): seq<Disk>
    requires |dirs| == 2
  {
    [dirs[0].disk, dirs[1].disk]
  }

  lemma AtMostThree(net: Net, id: string, n: nat)
    ensures |RevokeCourse(net, id, n).sent| <= MAX_ATTEMPTS
  {
    RetryMeans(RevokeTurns(net), n, 0);
  }

  /** Both files hold the key of that name. */
  ghost predicate Kept(keys: map<string, Key>, name: string, dir: Directory)
    reads dir
  {
    && name in keys && KeyId(keys[name].id)
    && dir.keyId == Holds(keys[name].id) && dir.apiKey == Holds(keys[name].secret)
  }

  /** The exact key of one name is revoked, by its recorded ID or, when its creation
      left no record, by the ID that the same idempotent POST answers with. */
  method RevokeNamed(remote: Remote, dir: Directory, name: string) returns (fault: Option<Raw>)
    requires Records(remote.keys, name, dir.keyId)
    modifies remote, dir
    ensures (Now(remote, dir), fault) == NamedRevoked(remote.net, dir.disk, old(Now(remote, dir)), name)
    ensures StepFor(remote, name, 2 * MAX_ATTEMPTS)
    ensures fault == None ==> !Active(remote.keys, name)
  {
    hide Revoked, RevokeKeys, RevokeCourse, RevokeEnds, Mint, Same, Written, ReadOf, Calmer, Posted, Active, KeyId,
         ApiKey;
    CalmSame(remote.keys, {name});
    var id: string;
    ghost var before := remote.keys;
    if dir.keyId != Absent {
      var recorded := dir.Read(dir.keyId);
      if recorded.Err? {
        return Some(recorded.error);
      }
      if !KeyId(recorded.value) {
        return Some(Credential);
      }
      id := recorded.value;
      PartsAreNotIds(id, remote.keys[name].id);
    } else {
      var minted := remote.MintOrdinaryKey(name);
      CalmPost(before, name, remote.keys);
      if minted.Err? {
        return Some(minted.error);
      }
      id := minted.value.id;
      var file, failed := dir.Write(dir.keyId, id);
      dir.keyId := file;
      if failed.Some? {
        return failed;
      }
    }
    ghost var minted := remote.keys;
    CalmSame(minted, {name});
    CalmRevoke(minted, name);
    AtMostThree(remote.net, id, |remote.sent|);
    var fate := remote.RetryRevoke(id);
    CalmerChains(before, minted, remote.keys, {name}, {name});
    assert {name} + {name} == {name};
    fault := FaultOf(fate);
  }

  /** A completed sibling is revoked by its record, and never created again. */
  method RevokeRecorded(remote: Remote, dir: Directory, ghost name: string) returns (fault: Option<Raw>)
    requires dir.keyId.Holds? && Records(remote.keys, name, dir.keyId)
    modifies remote, dir`gets
    ensures (Now(remote, dir), fault) == RecordedRevoked(remote.net, dir.disk, old(Now(remote, dir)))
    ensures StepFor(remote, name, MAX_ATTEMPTS)
    ensures fault == None ==> !Active(remote.keys, name)
  {
    var recorded := dir.Read(dir.keyId);
    if recorded.Err? {
      return Some(recorded.error);
    }
    if !KeyId(recorded.value) {
      return Some(Credential);
    }
    PartsAreNotIds(recorded.value, remote.keys[name].id);
    CalmRevoke(remote.keys, name);
    AtMostThree(remote.net, recorded.value, |remote.sent|);
    var fate := remote.RetryRevoke(recorded.value);
    fault := FaultOf(fate);
  }

  /** Making one key and keeping it: the part that is undone when it fails. */
  method Attempt(remote: Remote, dir: Directory, name: string) returns (fault: Option<Raw>)
    requires dir.keyId == Absent && dir.apiKey == Absent
    modifies remote, dir
    ensures (Now(remote, dir), fault) == Attempted(remote.net, dir.disk, old(Now(remote, dir)), name)
    ensures Posted(old(remote.keys), name, remote.keys) && Records(remote.keys, name, dir.keyId)
    ensures |old(remote.sent)| <= |remote.sent| <= |old(remote.sent)| + MAX_ATTEMPTS + 1
    ensures fault == None ==> Kept(remote.keys, name, dir)
  {
    var minted := remote.MintOrdinaryKey(name);
    if minted.Err? {
      return Some(minted.error);
    }
    var file, failed := dir.Write(dir.keyId, minted.value.id);
    dir.keyId := file;
    if failed.Some? {
      return failed;
    }
    fault := remote.Identity();
    if fault.Some? {
      return fault;
    }
    file, failed := dir.Write(dir.apiKey, minted.value.secret);
    dir.apiKey := file;
    fault := failed;
  }

  /** A `Cleanup` fault says that a key may be left. A `Credential` or `Os` fault says
      that none is, whatever was lost on the way: the name has no active key, or
      nothing was asked for at all. */
  method CreateWithAuth(remote: Remote, dir: Directory, name: string) returns (fault: Option<Fault>)
    modifies remote, dir
    ensures (Now(remote, dir), fault) == KeyCreated(remote.net, dir.disk, old(Now(remote, dir)), name)
    ensures StepFor(remote, name, 10)
    ensures fault == None ==> Kept(remote.keys, name, dir) && Posted(old(remote.keys), name, remote.keys)
                              && |remote.sent| <= |old(remote.sent)| + 4
    ensures fault == Some(Credential) || fault == Some(Os) ==>
              !Active(remote.keys, name) || remote.keys == old(remote.keys)
  {
    fault := dir.Prepare();
    if fault.Some? {
      return;
    }
    ghost var before := remote.keys;
    fault := Attempt(remote, dir, name);
    CalmPost(before, name, remote.keys);
    if fault == None || fault == Some(Other) {
      return;
    }
    ghost var made := remote.keys;
    var undone := RevokeNamed(remote, dir, name);
    CalmerChains(before, made, remote.keys, {name}, {name});
    fault := match undone
      case None => Some(Credential)
      case Some(Other) => Some(Other)
      case Some(_) => Some(Cleanup);
  }

  /** The keys of the pair's names that a run added and left active. */
  ghost predicate NoneAdded(before: map<string, Key>, names: seq<string>, after: map<string, Key>) {
    forall name :: name in names && Active(after, name) ==> Active(before, name)
  }

  ghost predicate Isolates(keys: map<string, Key>, primary: string, failure: string) {
    primary in keys && failure in keys && keys[primary].id != keys[failure].id
        && keys[primary].secret != keys[failure].secret
  }

  /** Reading back what was kept, and comparing the two. */
  method Isolated(primary: Directory, failure: Directory, ghost m: map<string, Key>, ghost s: seq<Request>)
    returns (fault: Option<Raw>)
    modifies primary`gets, failure`gets
    ensures primary != failure ==>
              (Both(m, s, primary.View(), failure.View()), fault)
              == Compared(primary.disk, failure.disk, Both(m, s, old(primary.View()), old(failure.View())))
    ensures fault == None ==>
              && primary.keyId.Holds? && failure.keyId.Holds? && primary.keyId != failure.keyId
              && primary.apiKey.Holds? && failure.apiKey.Holds? && primary.apiKey != failure.apiKey
  {
    var primaryId := primary.Read(primary.keyId);
    if primaryId.Err? { return Some(primaryId.error); }
    var failureId := failure.Read(failure.keyId);
    if failureId.Err? { return Some(failureId.error); }
    var primaryKey := primary.Read(primary.apiKey);
    if primaryKey.Err? { return Some(primaryKey.error); }
    var failureKey := failure.Read(failure.apiKey);
    if failureKey.Err? { return Some(failureKey.error); }
    var same := primaryId.value == failureId.value || primaryKey.value == failureKey.value;
    fault := if same then Some(Credential) else None;
  }

  lemma BesideIs(before: Both, after: Both, n: nat)
    requires if n == 0 then after.second == before.second else after.first == before.first
    ensures Beside(before, n, Side(after, n)) == after
  {
  }

  lemma UndoneOne(net: Net, disks: seq<Disk>, b: Both, n: nat, completed: nat, converged: bool)
    requires |disks| == 2 && n < completed <= 2
    ensures var (at, fault) := RecordedRevoked(net, disks[n], Side(b, n));
            UndoneFrom(net, disks, b, n, completed, converged)
            == if fault == Some(Other) then (Beside(b, n, at), Stopped(Other))
               else UndoneFrom(net, disks, Beside(b, n, at), n + 1, completed, converged && fault == None)
  {
    hide RecordedRevoked;
  }

  lemma UndoneNone(net: Net, disks: seq<Disk>, b: Both, completed: nat, converged: bool)
    requires |disks| == 2 && completed <= 2
    ensures UndoneFrom(net, disks, b, completed, completed, converged)
            == (b, if converged then EveryKeyRevoked else NotConverged)
  {
  }

  lemma CreatedOne(net: Net, disks: seq<Disk>, b: Both, names: seq<string>, n: nat)
    requires |disks| == 2 && |names| == 2 && n < 2
    ensures var (at, fault) := KeyCreated(net, disks[n], Side(b, n), names[n]);
            CreatedFrom(net, disks, b, names, n)
            == if fault.Some? then (Beside(b, n, at), fault, n)
               else CreatedFrom(net, disks, Beside(b, n, at), names, n + 1)
  {
    hide KeyCreated, Compared;
  }

  lemma CreatedAll(net: Net, disks: seq<Disk>, b: Both, names: seq<string>)
    requires |disks| == 2 && |names| == 2
    ensures var (after, fault) := Compared(disks[0], disks[1], b);
            CreatedFrom(net, disks, b, names, 2) == (after, fault, 2)
  {
    hide Compared;
  }

  /** Revoking the keys that were completed, each even when another one failed. */
  method Undo(remote: Remote, dirs: seq<Directory>, names: seq<string>, failed: Fault, completed: nat)
    returns (outcome: Outcome)
    requires |dirs| == 2 && |names| == 2 && completed <= 2
    requires dirs[0] != dirs[1] && forall i :: 0 <= i < completed ==> Kept(remote.keys, names[i], dirs[i])
    modifies remote, dirs
    ensures (NowBoth(remote, dirs), outcome)
            == UndoneFrom(remote.net, Disks(dirs), old(NowBoth(remote, dirs)), 0, completed, failed != Cleanup)
    ensures Calmer(old(remote.keys), NameSet(names, completed), remote.keys)
    ensures |old(remote.sent)| <= |remote.sent| <= |old(remote.sent)| + MAX_ATTEMPTS * completed
    ensures outcome != CreatedPair && (failed == Cleanup ==> outcome != EveryKeyRevoked)
    ensures outcome == EveryKeyRevoked ==> forall i :: 0 <= i < completed ==> !Active(remote.keys, names[i])
  {
    hide Calmer, NameSet, Posted, Revoked, UndoneFrom, RecordedRevoked, Active, KeyId, Beside;
    ghost var start := remote.keys;
    CalmStart(start, names);
    var converged := failed != Cleanup;
    var done := 0;
    while done < completed
      invariant 0 <= done <= completed
      invariant UndoneFrom(remote.net, Disks(dirs), NowBoth(remote, dirs), done, completed, converged)
                == UndoneFrom(remote.net, Disks(dirs), old(NowBoth(remote, dirs)), 0, completed, failed != Cleanup)
      invariant Calmer(start, NameSet(names, done), remote.keys)
      invariant forall i :: 0 <= i < completed ==> Kept(remote.keys, names[i], dirs[i])
      invariant converged ==> failed != Cleanup && forall i :: 0 <= i < done ==> !Active(remote.keys, names[i])
      invariant |old(remote.sent)| <= |remote.sent| <= |old(remote.sent)| + MAX_ATTEMPTS * done
    {
      ghost var before := remote.keys;
      ghost var was := NowBoth(remote, dirs);
      UndoneOne(remote.net, Disks(dirs), was, done, completed, converged);
      var fault := RevokeRecorded(remote, dirs[done], names[done]);
      BesideIs(was, NowBoth(remote, dirs), done);
      Chained(start, before, remote.keys, names, done);
      Calm(before, {names[done]}, remote.keys, names[0]);
      Calm(before, {names[done]}, remote.keys, names[1]);
      done := done + 1;
      if fault == Some(Other) {
        CalmerWidens(start, remote.keys, names, done, completed);
        return Stopped(Other);
      }
      converged := converged && fault == None;
    }
    UndoneNone(remote.net, Disks(dirs), NowBoth(remote, dirs), completed, converged);
    outcome := if converged then EveryKeyRevoked else NotConverged;
  }

  lemma CalmerWidens(before: map<string, Key>, after: map<string, Key>, names: seq<string>, n: nat, m: nat)
    requires n <= m <= |names| && Calmer(before, NameSet(names, n), after)
    ensures Calmer(before, NameSet(names, m), after)
  {
    assert NameSet(names, n) <= NameSet(names, m);
  }

  lemma CalmerTwice(a: map<string, Key>, b: map<string, Key>, c: map<string, Key>, names: seq<string>, n: nat)
    requires n <= |names| && Calmer(a, NameSet(names, |names|), b) && Calmer(b, NameSet(names, n), c)
    ensures Calmer(a, NameSet(names, |names|), c)
  {
    CalmerChains(a, b, c, NameSet(names, |names|), NameSet(names, n));
    assert NameSet(names, |names|) + NameSet(names, n) == NameSet(names, |names|);
  }

  lemma Untouched(before: map<string, Key>, after: map<string, Key>, names: seq<string>, n: nat, m: nat)
    requires n <= m < |names| && Calmer(before, NameSet(names, n), after)
    requires forall i, j :: 0 <= i < j < |names| ==> names[i] != names[j]
    ensures Active(after, names[m]) ==> Active(before, names[m])
  {
    assert names[m] !in NameSet(names, n);
  }

  /** The two creations, and the comparison of what they kept. */
  method CreateBoth(remote: Remote, dirs: seq<Directory>, names: seq<string>)
    returns (failed: Option<Fault>, completed: nat)
    requires |dirs| == 2 && dirs[0] != dirs[1] && |names| == 2 && names[0] != names[1]
    modifies remote, dirs
    ensures (NowBoth(remote, dirs), failed, completed)
            == CreatedFrom(remote.net, Disks(dirs), old(NowBoth(remote, dirs)), names, 0)
    ensures completed <= 2 && Calmer(old(remote.keys), NameSet(names, 2), remote.keys)
    ensures |remote.sent| <= |old(remote.sent)| + 4 * completed + (if completed < 2 then 10 else 0)
    ensures forall i :: 0 <= i < completed ==> Kept(remote.keys, names[i], dirs[i])
    ensures failed == None ==>
              && completed == 2
              && Isolates(remote.keys, names[0], names[1])
              && (forall i :: 0 <= i < 2 && names[i] !in old(remote.keys) ==> Active(remote.keys, names[i]))
    ensures failed == Some(Credential) || failed == Some(Os) ==>
              forall i :: completed <= i < 2 && Active(remote.keys, names[i]) ==> Active(old(remote.keys), names[i])
  {
    hide Calmer, NameSet, Revoked, CreatedFrom, KeyCreated, Compared;
    ghost var start := remote.keys;
    CalmStart(start, names);
    failed, completed := None, 0;
    while completed < 2
      invariant 0 <= completed <= 2
      invariant CreatedFrom(remote.net, Disks(dirs), NowBoth(remote, dirs), names, completed)
                == CreatedFrom(remote.net, Disks(dirs), old(NowBoth(remote, dirs)), names, 0)
      invariant Calmer(start, NameSet(names, completed), remote.keys)
      invariant forall i :: 0 <= i < completed ==> Kept(remote.keys, names[i], dirs[i])
      invariant forall i :: 0 <= i < completed && names[i] !in start ==> Active(remote.keys, names[i])
      invariant |remote.sent| <= |old(remote.sent)| + 4 * completed
    {
      ghost var before := remote.keys;
      Calm(start, NameSet(names, completed), before, names[completed]);
      Untouched(start, before, names, completed, completed);
      NotYet(names, completed);
      CreatedOne(remote.net, Disks(dirs), NowBoth(remote, dirs), names, completed);
      failed := CreateWithAuth(remote, dirs[completed], names[completed]);
      Chained(start, before, remote.keys, names, completed);
      Calm(before, {names[completed]}, remote.keys, names[0]);
      if failed.Some? {
        if completed == 0 {
          Untouched(start, remote.keys, names, 1, 1);
        }
        CalmerWidens(start, remote.keys, names, completed + 1, 2);
        return;
      }
      completed := completed + 1;
    }
    CreatedAll(remote.net, Disks(dirs), NowBoth(remote, dirs), names);
    failed := Isolated(dirs[0], dirs[1], remote.keys, remote.sent);
  }

  lemma NotYet(names: seq<string>, n: nat)
    requires n < |names| && forall i, j :: 0 <= i < j < |names| ==> names[i] != names[j]
    ensures names[n] !in NameSet(names, n)
  {
  }

  function PairNames(runId: string, runAttempt: string, lane: CiNames.Lane): seq<string> {
    [CiNames.CredentialName(runId, runAttempt, lane, CiNames.Primary),
     CiNames.CredentialName(runId, runAttempt, lane, CiNames.Failing)]
  }

  lemma PairNamesDiffer(runId: string, runAttempt: string, lane: CiNames.Lane)
    requires CiNames.ValidRun(runId, runAttempt)
    ensures PairNames(runId, runAttempt, lane)[0] != PairNames(runId, runAttempt, lane)[1]
  {
    if PairNames(runId, runAttempt, lane)[0] == PairNames(runId, runAttempt, lane)[1] {
      CiNames.CredentialNameTells(runId, runAttempt, lane, CiNames.Primary, runId, runAttempt, lane, CiNames.Failing);
      assert false;
    }
  }

  /** Main result: a run of the pair tells the truth. Success means that both names
      have a key, that the two differ in ID and in secret, that both are kept on
      disk, and that both are active if the run made them. "Every created key was
      revoked" means that the run left no key of its own active, under any pattern of
      lost answers, lost commits, retries and torn files. At most 17 requests are
      sent, and no key of another name changes, unless it has a run key's ID. */
  method CreatePair(remote: Remote, dirs: seq<Directory>, runId: string, runAttempt: string, lane: CiNames.Lane,
                    checks: Option<Raw>) returns (outcome: Outcome)
    requires |dirs| == 2 && dirs[0] != dirs[1]
    modifies remote, dirs
    ensures if CiNames.ValidRun(runId, runAttempt) && checks == None then
              (NowBoth(remote, dirs), outcome) == PairCreated(remote.net, Disks(dirs), old(NowBoth(remote, dirs)),
                                                              PairNames(runId, runAttempt, lane))
            else
              && NowBoth(remote, dirs) == old(NowBoth(remote, dirs))
              && outcome == Stopped(if CiNames.ValidRun(runId, runAttempt) then checks.value else Credential)
    ensures Calmer(old(remote.keys), NameSet(PairNames(runId, runAttempt, lane), 2), remote.keys)
    ensures |remote.sent| <= |old(remote.sent)| + 17
    ensures outcome == CreatedPair ==>
              var names := PairNames(runId, runAttempt, lane);
              && Kept(remote.keys, names[0], dirs[0]) && Kept(remote.keys, names[1], dirs[1])
              && Isolates(remote.keys, names[0], names[1])
              && (forall name :: name in names && name !in old(remote.keys) ==> Active(remote.keys, name))
    ensures outcome == EveryKeyRevoked ==> NoneAdded(old(remote.keys), PairNames(runId, runAttempt, lane), remote.keys)
    ensures !CiNames.ValidRun(runId, runAttempt) ==> outcome.Stopped? && remote.keys == old(remote.keys)
  {
    hide Calmer, NameSet, Posted, Revoked, CiNames.CredentialName, CreatedFrom, UndoneFrom;
    ghost var start := remote.keys;
    var names := PairNames(runId, runAttempt, lane);
    CalmStart(start, names);
    CalmerWidens(start, start, names, 0, 2);
    if !CiNames.ValidRun(runId, runAttempt) {
      return Stopped(Credential);
    }
    if checks.Some? {
      return Stopped(checks.value);
    }
    PairNamesDiffer(runId, runAttempt, lane);
    var failed, completed := CreateBoth(remote, dirs, names);
    if failed == None {
      return CreatedPair;
    }
    if failed == Some(Other) {
      return Stopped(Other);
    }
    ghost var made := remote.keys;
    outcome := Undo(remote, dirs, names, failed.value, completed);
    CalmerTwice(start, made, remote.keys, names, completed);
    Calm(made, NameSet(names, completed), remote.keys, names[0]);
    Calm(made, NameSet(names, completed), remote.keys, names[1]);
    if completed == 0 {
      Untouched(made, remote.keys, names, 0, 0);
    }
    if completed <= 1 {
      Untouched(made, remote.keys, names, completed, 1);
    }
  }
}
