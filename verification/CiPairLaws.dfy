/** When each outcome of creating the pair happens. */
module CiPairLaws {
  import opened Wrappers
  import opened CiShapes
  import opened CiRemote
  import opened CiFiles
  import opened CiPairSpec

  // ---------------------------------------------------------- when nothing fails

  ghost predicate Sound(disk: Disk) {
    disk.prepare == None && forall i: nat :: disk.write(i) == None && disk.read(i) == None
  }

  ghost predicate WellFormed(id: string, secret: string) {
    KeyId(id) && ApiKey(secret)
  }

  function Kept(shelf: Shelf, id: string, secret: string): Shelf {
    Shelf(Holds(id), Holds(secret), shelf.puts + 2, shelf.gets)
  }

  lemma MintsAtOnce(net: Net, at: At, name: string)
    requires var n := |at.sent|;
             name !in at.keys && net.post(n).Created? && WellFormed(net.id(n), net.secret(n))
    ensures var n := |at.sent|;
            var key := Key(net.id(n), net.secret(n), true);
            Minted(net, at, name)
            == (at.(keys := at.keys[name := key], sent := at.sent + [CreateKey(name)]), Ok(key))
  {
    assert Same(CreateKey(name), 1) == [CreateKey(name)];
  }

  lemma WritesAtOnce(disk: Disk, at: At, id: string, secret: string)
    requires Sound(disk) && WellFormed(id, secret)
    ensures at.shelf.keyId == Absent ==>
              IdWritten(disk, at, id) == (at.(shelf := at.shelf.(keyId := Holds(id), puts := at.shelf.puts + 1)), None)
    ensures at.shelf.apiKey == Absent ==>
              SecretWritten(disk, at, secret)
              == (at.(shelf := at.shelf.(apiKey := Holds(secret), puts := at.shelf.puts + 1)), None)
  {
    KeysAreValues(id, secret);
    hide OneValue;
  }

  /** One creation in which nothing fails. */
  lemma CreatesAtOnce(net: Net, disk: Disk, at: At, name: string)
    requires Sound(disk) && at.shelf.keyId == Absent && at.shelf.apiKey == Absent && name !in at.keys
    requires var n := |at.sent|;
             net.post(n).Created? && net.check(n + 1) == None && WellFormed(net.id(n), net.secret(n))
    ensures var n := |at.sent|;
            var key := Key(net.id(n), net.secret(n), true);
            KeyCreated(net, disk, at, name)
            == (At(at.keys[name := key], at.sent + [CreateKey(name), AskIdentity], Kept(at.shelf, key.id, key.secret)),
                None)
  {
    var n := |at.sent|;
    MintsAtOnce(net, at, name);
    hide Minted, IdWritten, SecretWritten, WellFormed, KeyId, ApiKey, OneValue;
    var (minted, key) := Minted(net, at, name);
    WritesAtOnce(disk, minted, net.id(n), net.secret(n));
    var asked := IdWritten(disk, minted, net.id(n)).0.(sent := minted.sent + [AskIdentity]);
    WritesAtOnce(disk, asked, net.id(n), net.secret(n));
    assert minted.sent + [AskIdentity] == at.sent + [CreateKey(name), AskIdentity];
  }

  lemma ReadsAtOnce(disk: Disk, gets: nat, id: string, secret: string)
    requires Sound(disk) && WellFormed(id, secret)
    ensures ReadOf(disk, gets, Holds(id)) == Ok(id) && ReadOf(disk, gets, Holds(secret)) == Ok(secret)
  {
    KeysAreValues(id, secret);
    hide OneValue;
  }

  /** Main result: when nothing fails and the service makes two different, well-formed
      keys, both are created, kept and active, with one POST and one check for each,
      and nothing else happens. */
  lemma ACalmRunCreatesBoth(net: Net, disks: seq<Disk>, b: Both, names: seq<string>)
    requires |disks| == 2 && Sound(disks[0]) && Sound(disks[1])
    requires |names| == 2 && names[0] != names[1] && names[0] !in b.keys && names[1] !in b.keys
    requires b.first.keyId == b.first.apiKey == b.second.keyId == b.second.apiKey == Absent
    requires var n := |b.sent|;
             && net.post(n).Created? && net.check(n + 1) == None && WellFormed(net.id(n), net.secret(n))
             && net.post(n + 2).Created? && net.check(n + 3) == None && WellFormed(net.id(n + 2), net.secret(n + 2))
             && net.id(n) != net.id(n + 2) && net.secret(n) != net.secret(n + 2)
    ensures var n := |b.sent|;
            var (after, outcome) := PairCreated(net, disks, b, names);
            && outcome == CreatedPair
            && after.keys == b.keys[names[0] := Key(net.id(n), net.secret(n), true)]
                                   [names[1] := Key(net.id(n + 2), net.secret(n + 2), true)]
            && after.sent == b.sent + [CreateKey(names[0]), AskIdentity, CreateKey(names[1]), AskIdentity]
            && after.first.keyId == Holds(net.id(n)) && after.first.apiKey == Holds(net.secret(n))
            && after.second.keyId == Holds(net.id(n + 2)) && after.second.apiKey == Holds(net.secret(n + 2))
  {
    var n := |b.sent|;
    hide KeyCreated, Compared, WellFormed, Sound;
    CreatesAtOnce(net, disks[0], Side(b, 0), names[0]);
    var b1 := Beside(b, 0, KeyCreated(net, disks[0], Side(b, 0), names[0]).0);
    CreatesAtOnce(net, disks[1], Side(b1, 1), names[1]);
    var b2 := Beside(b1, 1, KeyCreated(net, disks[1], Side(b1, 1), names[1]).0);
    ComparesAtOnce(disks[0], disks[1], b2, net.id(n), net.secret(n), net.id(n + 2), net.secret(n + 2));
    assert CreatedFrom(net, disks, b, names, 0) == CreatedFrom(net, disks, b1, names, 1);
    assert CreatedFrom(net, disks, b1, names, 1) == CreatedFrom(net, disks, b2, names, 2);
    assert b.sent + [CreateKey(names[0]), AskIdentity] + [CreateKey(names[1]), AskIdentity]
           == b.sent + [CreateKey(names[0]), AskIdentity, CreateKey(names[1]), AskIdentity];
  }

  lemma ComparesAtOnce(d0: Disk, d1: Disk, b: Both, id0: string, secret0: string, id1: string, secret1: string)
    requires Sound(d0) && Sound(d1) && WellFormed(id0, secret0) && WellFormed(id1, secret1)
    requires b.first.keyId == Holds(id0) && b.first.apiKey == Holds(secret0)
    requires b.second.keyId == Holds(id1) && b.second.apiKey == Holds(secret1)
    requires id0 != id1 && secret0 != secret1
    ensures var (after, fault) := Compared(d0, d1, b);
            fault == None && after == b.(first := b.first.(gets := b.first.gets + 2),
                                         second := b.second.(gets := b.second.gets + 2))
  {
    ReadsAtOnce(d0, b.first.gets, id0, secret0);
    ReadsAtOnce(d0, b.first.gets + 1, id0, secret0);
    ReadsAtOnce(d1, b.second.gets, id1, secret1);
    ReadsAtOnce(d1, b.second.gets + 1, id1, secret1);
    hide ReadOf;
  }

  // ------------------------------------------------------------- what has failed

  /** What one request raised, if it was not answered well. */
  function RequestFault(net: Net, r: Request, k: nat): Option<Raw> {
    match r
    case CreateKey(_) =>
      (match net.post(k)
       case Created => None
       case NotCreated(_, f) => Some(f))
    case RevokeKey(_) =>
      (match net.revoke(k).reply
       case Status(code) => if code in {200, 204, 404} then None else Some(Credential)
       case NoReply(f) => Some(f))
    case AskIdentity => net.check(k)
    case _ => None
  }

  /** The last request of a step was not answered well, or its answer carries a
      malformed key. */
  ghost predicate LastFailed(net: Net, before: At, after: At) {
    && |before.sent| < |after.sent|
    && var r := after.sent[|after.sent| - 1];
       RequestFault(net, r, |after.sent| - 1).Some? || (r.CreateKey? && !Usable(after.keys, r.name))
  }

  /** A write or a read of a step failed. */
  ghost predicate DiskFailed(disk: Disk, before: At, after: At) {
    || (exists i :: before.shelf.puts <= i < after.shelf.puts && disk.write(i).Some?)
    || (exists i :: before.shelf.gets <= i < after.shelf.gets && disk.read(i).Some?)
  }

  /** Another kind of fault was raised by the last request, or by a read. */
  ghost predicate OtherRaised(net: Net, disk: Disk, before: At, after: At) {
    || (|before.sent| < |after.sent|
        && RequestFault(net, after.sent[|after.sent| - 1], |after.sent| - 1) == Some(Other))
    || (exists i :: before.shelf.gets <= i < after.shelf.gets && disk.read(i) == Some(Other))
  }

  /** The last request was a DELETE of a key that the service answered well. */
  ghost predicate RevokedLast(net: Net, before: At, after: At) {
    && |before.sent| < |after.sent| && after.sent[|after.sent| - 1].RevokeKey?
    && RequestFault(net, after.sent[|after.sent| - 1], |after.sent| - 1) == None
  }

  lemma RevokingTells(net: Net, at: At, id: string)
    ensures var (after, fault) := Revoking(net, at, id);
            && after.shelf == at.shelf && at.sent <= after.sent
            && (fault == None <==> RevokedLast(net, at, after))
            && (fault.Some? ==> LastFailed(net, at, after))
            && |at.sent| < |after.sent|
            && fault == RequestFault(net, after.sent[|after.sent| - 1], |after.sent| - 1)
  {
    var n, course := |at.sent|, RevokeCourse(net, id, |at.sent|);
    RevokeInCodes(net, id, n);
    hide RevokeCourse, RevokeKeys;
    assert course.sent[|course.sent| - 1] == RevokeKey(id);
    assert RevokeReplies(net)(n + |course.sent| - 1) == net.revoke(n + |course.sent| - 1).reply;
  }

  lemma MintedTells(net: Net, at: At, name: string)
    ensures var (after, key) := Minted(net, at, name);
            && after.shelf == at.shelf && at.sent <= after.sent && |at.sent| < |after.sent|
            && after.sent[|after.sent| - 1] == CreateKey(name)
            && (key.Err? <==> LastFailed(net, at, after))
            && (key == Err(Other) ==>
                  RequestFault(net, after.sent[|after.sent| - 1], |after.sent| - 1) == Some(Other))
  {
    MintMeans(net, at.keys, name, |at.sent|, 0);
    hide Mint, Usable;
  }

  /** A record that is not a whole ID. */
  ghost predicate Torn(shelf: Shelf) {
    match shelf.keyId
    case Absent => true
    case Holds(text) => !KeyId(text)
  }

  lemma IdReadTells(disk: Disk, at: At)
    ensures var (after, id) := IdRead(disk, at);
            && after.sent == at.sent && after.keys == at.keys && after.shelf.puts == at.shelf.puts
            && (id.Err? <==> DiskFailed(disk, at, after) || Torn(at.shelf))
            && (id == Err(Other) ==> disk.read(at.shelf.gets) == Some(Other) && after.shelf.gets == at.shelf.gets + 1)
  {
    if at.shelf.keyId.Holds? {
      KeysAreValues(at.shelf.keyId.text, "");
    }
    hide OneValue;
  }

  ghost predicate UndoFailed(net: Net, disk: Disk, before: At, after: At) {
    LastFailed(net, before, after) || DiskFailed(disk, before, after) || Torn(before.shelf)
  }

  /** A revoke by record ends well exactly when its last request was answered well, and
      otherwise that request, or the reading of the record, really failed. */
  lemma RecordedRevokedTells(net: Net, disk: Disk, at: At)
    ensures var (after, fault) := RecordedRevoked(net, disk, at);
            && at.sent <= after.sent
            && (fault == None <==> RevokedLast(net, at, after))
            && (fault.Some? ==> UndoFailed(net, disk, at, after))
            && (fault == Some(Other) ==> OtherRaised(net, disk, at, after))
  {
    IdReadTells(disk, at);
    var (read, id) := IdRead(disk, at);
    hide IdRead, Revoking, Torn;
    if id.Ok? {
      RevokingTells(net, read, id.value);
    }
  }

  lemma IdWrittenTells(disk: Disk, at: At, id: string)
    requires KeyId(id) && at.shelf.keyId == Absent
    ensures var (after, fault) := IdWritten(disk, at, id);
            && after.sent == at.sent && after.keys == at.keys && after.shelf.gets == at.shelf.gets
            && after.shelf.puts == at.shelf.puts + 1 && after.shelf.apiKey == at.shelf.apiKey
            && (fault.Some? <==> disk.write(at.shelf.puts).Some?) && fault != Some(Other)
  {
    KeysAreValues(id, "");
    hide OneValue;
  }

  lemma SecretWrittenTells(disk: Disk, at: At, secret: string)
    requires ApiKey(secret) && at.shelf.apiKey == Absent
    ensures var (after, fault) := SecretWritten(disk, at, secret);
            && after.sent == at.sent && after.keys == at.keys && after.shelf.gets == at.shelf.gets
            && after.shelf.puts == at.shelf.puts + 1
            && (fault.Some? <==> disk.write(at.shelf.puts).Some?) && fault != Some(Other)
  {
    KeysAreValues("", secret);
    hide OneValue;
  }

  /** The same for a revoke by name, which may have to ask for the key again. */
  lemma NamedRevokedTells(net: Net, disk: Disk, at: At, name: string)
    ensures var (after, fault) := NamedRevoked(net, disk, at, name);
            && at.sent <= after.sent
            && (fault == None <==> RevokedLast(net, at, after))
            && (fault.Some? ==> LastFailed(net, at, after) || DiskFailed(disk, at, after)
                                || (at.shelf.keyId.Holds? && Torn(at.shelf)))
            && (fault == Some(Other) ==> OtherRaised(net, disk, at, after))
  {
    hide RecordedRevoked, Minted, IdWritten, Revoking, Torn, KeyId, ApiKey;
    if at.shelf.keyId != Absent {
      RecordedRevokedTells(net, disk, at);
    } else {
      MintedTells(net, at, name);
      var (minted, key) := Minted(net, at, name);
      if key.Ok? {
        MintedKey(net, at, name);
        IdWrittenTells(disk, minted, key.value.id);
        var (written, fault) := IdWritten(disk, minted, key.value.id);
        if fault == None {
          RevokingTells(net, written, key.value.id);
        }
      }
    }
  }

  lemma MintedKey(net: Net, at: At, name: string)
    ensures var (after, key) := Minted(net, at, name);
            key.Ok? ==> name in after.keys && key.value == after.keys[name] && KeyId(key.value.id)
                        && ApiKey(key.value.secret)
  {
    MintEnds(net, at.keys, name, |at.sent|);
    UsableIs(Minted(net, at, name).0.keys, name);
    hide Mint, Usable;
  }

  /** An attempt fails exactly when its last request, or a write, failed. */
  lemma AttemptedTells(net: Net, disk: Disk, at: At, name: string)
    requires at.shelf.keyId == Absent && at.shelf.apiKey == Absent
    ensures var (after, fault) := Attempted(net, disk, at, name);
            && at.sent <= after.sent && |at.sent| < |after.sent|
            && (fault.Some? <==> LastFailed(net, at, after) || DiskFailed(disk, at, after))
            && (fault == Some(Other) ==> OtherRaised(net, disk, at, after))
  {
    hide Minted, IdWritten, SecretWritten, KeyId, ApiKey;
    MintedTells(net, at, name);
    MintedKey(net, at, name);
    var (minted, key) := Minted(net, at, name);
    if key.Ok? {
      IdWrittenTells(disk, minted, key.value.id);
      var (written, fault) := IdWritten(disk, minted, key.value.id);
      if fault == None {
        var (asked, refused) := Asked(net, written);
        if refused == None {
          SecretWrittenTells(disk, asked, key.value.secret);
        }
      }
    }
  }

  // -------------------------------------------------------------------- outcomes

  predicate NotReady(disk: Disk, shelf: Shelf) {
    shelf.keyId != Absent || shelf.apiKey != Absent || disk.prepare.Some?
  }

  /** The directory was not ready, or the attempt's last request or a write failed. */
  ghost predicate CreationFailed(net: Net, disk: Disk, at: At, name: string) {
    || NotReady(disk, at.shelf)
    || LastFailed(net, at, Attempted(net, disk, at, name).0)
    || DiskFailed(disk, at, Attempted(net, disk, at, name).0)
  }

  /** One creation fails exactly when something of it failed; the failure tells that no
      key is left exactly when the last request of its undoing was a DELETE that was
      answered well, or when nothing was asked for at all. */
  lemma KeyCreatedTells(net: Net, disk: Disk, at: At, name: string)
    ensures var (after, fault) := KeyCreated(net, disk, at, name);
            var made := Attempted(net, disk, at, name).0;
            && at.sent <= after.sent
            && (fault.Some? <==> CreationFailed(net, disk, at, name))
            && (NotReady(disk, at.shelf) ==> after == at && fault != Some(Cleanup))
            && (fault == Some(Other) ==>
                  || disk.prepare == Some(Other) || OtherRaised(net, disk, at, made)
                  || OtherRaised(net, disk, made, after))
            && (!NotReady(disk, at.shelf) && fault.Some? && fault != Some(Other) ==>
                  && made.sent <= after.sent
                  && fault == Some(if RevokedLast(net, made, after) then Credential else Cleanup)
                  && after == NamedRevoked(net, disk, made, name).0
                  && (fault == Some(Cleanup) ==> UndoFailed(net, disk, made, after)))
  {
    hide Attempted, NamedRevoked, LastFailed, DiskFailed, OtherRaised, RevokedLast, Torn;
    if !NotReady(disk, at.shelf) {
      AttemptedTells(net, disk, at, name);
      NamedRevokedTells(net, disk, Attempted(net, disk, at, name).0, name);
    }
  }

  lemma ComparedTells(d0: Disk, d1: Disk, b: Both)
    ensures var (after, fault) := Compared(d0, d1, b);
            && after.keys == b.keys && after.sent == b.sent
            && after.first == b.first.(gets := after.first.gets) && after.second == b.second.(gets := after.second.gets)
            && b.first.gets <= after.first.gets && b.second.gets <= after.second.gets
            && (fault != None ==> ComparisonFailed(d0, d1, b, after))
    ensures Compared(d0, d1, b).1 == Some(Other) ==>
              var after := Compared(d0, d1, b).0;
              || (exists i :: b.first.gets <= i < after.first.gets && d0.read(i) == Some(Other))
              || (exists i :: b.second.gets <= i < after.second.gets && d1.read(i) == Some(Other))
  {
    hide OneValue;
  }

  /** A file could not be read back, or the two keys are not told apart. */
  ghost predicate ComparisonFailed(d0: Disk, d1: Disk, b: Both, after: Both) {
    || (exists i :: b.first.gets <= i < after.first.gets && d0.read(i).Some?)
    || (exists i :: b.second.gets <= i < after.second.gets && d1.read(i).Some?)
    || !Readable(b.first.keyId) || !Readable(b.first.apiKey)
    || !Readable(b.second.keyId) || !Readable(b.second.apiKey)
    || b.first.keyId == b.second.keyId || b.first.apiKey == b.second.apiKey
  }

  predicate Readable(file: File) {
    file.Holds? && OneValue(file.text) && |file.text| <= 65536
  }

  /** What is read of a file: one exact value of at most 64 KiB; a missing file is a local
      fault, and any other content is refused. */
  lemma ReadTells(disk: Disk, gets: nat, file: File)
    ensures ReadOf(disk, gets, file)
            == if file == Absent then Err(Os)
               else if !Readable(file) then Err(Credential)
               else if disk.read(gets).Some? then Err(disk.read(gets).value)
               else Ok(file.text)
  {
  }

  /** What went wrong first: one creation, or the comparison after both. */
  ghost predicate WentWrong(net: Net, disks: seq<Disk>, names: seq<string>, b: Both, n: nat, completed: nat, made: Both)
    requires |disks| == 2 && |names| == 2 && n <= completed <= 2
  {
    if completed == 2 then
      exists before: Both :: b.sent <= before.sent && ComparisonFailed(disks[0], disks[1], before, made)
    else exists at: At :: b.sent <= at.sent && CreationFailed(net, disks[completed], at, names[completed])
  }

  lemma {:induction false} CreatedFromTells(net: Net, disks: seq<Disk>, b: Both, names: seq<string>, n: nat)
    requires |disks| == 2 && |names| == 2 && n <= 2
    ensures var (after, failed, completed) := CreatedFrom(net, disks, b, names, n);
            && n <= completed <= 2 && b.sent <= after.sent
            && (failed.Some? ==> WentWrong(net, disks, names, b, n, completed, after))
    ensures var (after, failed, completed) := CreatedFrom(net, disks, b, names, n);
            failed == Some(Cleanup) ==> completed < 2
    decreases 2 - n
  {
    hide KeyCreated, Compared, CreationFailed, ComparisonFailed, Attempted, NamedRevoked, UndoFailed;
    if n == 2 {
      ComparedTells(disks[0], disks[1], b);
    } else {
      KeyCreatedTells(net, disks[n], Side(b, n), names[n]);
      var (at, fault) := KeyCreated(net, disks[n], Side(b, n), names[n]);
      if fault == None {
        CreatedFromTells(net, disks, Beside(b, n, at), names, n + 1);
      }
    }
  }

  /** A step of the undoing of one key, and what really failed in it. */
  ghost predicate BadUndo(net: Net, disks: seq<Disk>, names: seq<string>, i: nat, from: At, to: At)
    requires |disks| == 2 && |names| == 2
  {
    && i < 2 && UndoFailed(net, disks[i], from, to) && !RevokedLast(net, from, to)
    && (to == NamedRevoked(net, disks[i], from, names[i]).0 || to == RecordedRevoked(net, disks[i], from).0)
  }

  lemma {:induction false} CleanupMeans(net: Net, disks: seq<Disk>, b: Both, names: seq<string>, n: nat)
    returns (i: nat, from: At, to: At)
    requires |disks| == 2 && |names| == 2 && n <= 2 && CreatedFrom(net, disks, b, names, n).1 == Some(Cleanup)
    ensures BadUndo(net, disks, names, i, from, to) && b.sent <= from.sent
    decreases 2 - n
  {
    hide KeyCreated, Compared, CreationFailed, ComparisonFailed, Attempted, NamedRevoked, RecordedRevoked, UndoFailed,
         RevokedLast, LastFailed, DiskFailed;
    CreatedFromTells(net, disks, b, names, n);
    KeyCreatedTells(net, disks[n], Side(b, n), names[n]);
    var (at, fault) := KeyCreated(net, disks[n], Side(b, n), names[n]);
    if fault == None {
      i, from, to := CleanupMeans(net, disks, Beside(b, n, at), names, n + 1);
    } else {
      AttemptGoesOn(net, disks[n], Side(b, n), names[n]);
      i, from, to := n, Attempted(net, disks[n], Side(b, n), names[n]).0, at;
    }
  }

  lemma AttemptGoesOn(net: Net, disk: Disk, at: At, name: string)
    requires !NotReady(disk, at.shelf)
    ensures at.sent <= Attempted(net, disk, at, name).0.sent
  {
    AttemptedTells(net, disk, at, name);
  }

  lemma {:induction false} UndoneMeans(net: Net, disks: seq<Disk>, names: seq<string>, b: Both, n: nat, completed: nat,
                                       converged: bool) returns (i: nat, from: At, to: At)
    requires |disks| == 2 && |names| == 2 && n <= completed <= 2 && converged
    requires UndoneFrom(net, disks, b, n, completed, converged).1 == NotConverged
    ensures BadUndo(net, disks, names, i, from, to) && b.sent <= from.sent
    decreases completed - n
  {
    hide RecordedRevoked, UndoFailed, RevokedLast, NamedRevoked;
    assert n < completed;
    RecordedRevokedTells(net, disks[n], Side(b, n));
    var (at, fault) := RecordedRevoked(net, disks[n], Side(b, n));
    if fault == None {
      i, from, to := UndoneMeans(net, disks, names, Beside(b, n, at), n + 1, completed, converged);
    } else {
      i, from, to := n, Side(b, n), at;
    }
  }

  /** Main result: "did not converge" is told only when some undoing really failed: its
      last request was not a DELETE that was answered well, and that request, or a write
      or read of its files, failed. */
  lemma NotConvergedMeans(net: Net, disks: seq<Disk>, b: Both, names: seq<string>) returns (i: nat, from: At, to: At)
    requires |disks| == 2 && |names| == 2 && PairCreated(net, disks, b, names).1 == NotConverged
    ensures BadUndo(net, disks, names, i, from, to) && b.sent <= from.sent
  {
    hide CreatedFrom, UndoneFrom, BadUndo;
    CreatedFromTells(net, disks, b, names, 0);
    var (made, failed, completed) := CreatedFrom(net, disks, b, names, 0);
    if failed == Some(Cleanup) {
      i, from, to := CleanupMeans(net, disks, b, names, 0);
    } else {
      i, from, to := UndoneMeans(net, disks, names, made, 0, completed, true);
    }
  }

  /** Main result: a run that did not create the pair, and was not stopped, met a
      failure: a directory that was not ready, a request or a write of an attempt, or the
      comparison of what both kept. */
  lemma FailureMeans(net: Net, disks: seq<Disk>, b: Both, names: seq<string>)
    requires |disks| == 2 && |names| == 2
    requires var outcome := PairCreated(net, disks, b, names).1; outcome == EveryKeyRevoked || outcome == NotConverged
    ensures var (made, failed, completed) := CreatedFrom(net, disks, b, names, 0);
            completed <= 2 && failed.Some? && WentWrong(net, disks, names, b, 0, completed, made)
  {
    CreatedFromTells(net, disks, b, names, 0);
    hide CreatedFrom, UndoneFrom, WentWrong;
  }

  /** Another kind of fault was raised: by making a directory ready, by the last request
      of some step, or by a read. */
  ghost predicate OtherMet(net: Net, disks: seq<Disk>)
    requires |disks| == 2
  {
    || disks[0].prepare == Some(Other) || disks[1].prepare == Some(Other)
    || (exists r: Request, k: nat :: RequestFault(net, r, k) == Some(Other))
    || (exists i: nat :: disks[0].read(i) == Some(Other))
    || (exists i: nat :: disks[1].read(i) == Some(Other))
  }

  lemma OtherMetBy(net: Net, disks: seq<Disk>, i: nat, before: At, after: At)
    requires |disks| == 2 && i < 2 && OtherRaised(net, disks[i], before, after)
    ensures OtherMet(net, disks)
  {
    if |before.sent| < |after.sent|
       && RequestFault(net, after.sent[|after.sent| - 1], |after.sent| - 1) == Some(Other) {
    } else {
      var k :| before.shelf.gets <= k < after.shelf.gets && disks[i].read(k) == Some(Other);
    }
  }

  lemma {:induction false} CreationStops(net: Net, disks: seq<Disk>, b: Both, names: seq<string>, n: nat)
    requires |disks| == 2 && |names| == 2 && n <= 2 && CreatedFrom(net, disks, b, names, n).1 == Some(Other)
    ensures OtherMet(net, disks)
    decreases 2 - n
  {
    hide KeyCreated, Compared, CreationFailed, Attempted, NamedRevoked, UndoFailed, OtherRaised, RevokedLast;
    if n == 2 {
      ComparedTells(disks[0], disks[1], b);
    } else {
      KeyCreatedTells(net, disks[n], Side(b, n), names[n]);
      var (at, fault) := KeyCreated(net, disks[n], Side(b, n), names[n]);
      var made := Attempted(net, disks[n], Side(b, n), names[n]).0;
      if fault == None {
        CreationStops(net, disks, Beside(b, n, at), names, n + 1);
      } else if OtherRaised(net, disks[n], Side(b, n), made) {
        OtherMetBy(net, disks, n, Side(b, n), made);
      } else if OtherRaised(net, disks[n], made, at) {
        OtherMetBy(net, disks, n, made, at);
      }
    }
  }

  lemma {:induction false} UndoStops(net: Net, disks: seq<Disk>, b: Both, n: nat, completed: nat, converged: bool)
    requires |disks| == 2 && n <= completed <= 2 && UndoneFrom(net, disks, b, n, completed, converged).1.Stopped?
    ensures UndoneFrom(net, disks, b, n, completed, converged).1 == Stopped(Other) && OtherMet(net, disks)
    decreases completed - n
  {
    hide RecordedRevoked, OtherMet, UndoFailed, OtherRaised, RevokedLast;
    assert n < completed;
    RecordedRevokedTells(net, disks[n], Side(b, n));
    var (at, fault) := RecordedRevoked(net, disks[n], Side(b, n));
    if fault == Some(Other) {
      OtherMetBy(net, disks, n, Side(b, n), at);
    } else {
      UndoStops(net, disks, Beside(b, n, at), n + 1, completed, converged && fault == None);
    }
  }

  /** Main result: once it has begun, a run is stopped only by another kind of fault
      that something really raised. */
  lemma StoppedMeans(net: Net, disks: seq<Disk>, b: Both, names: seq<string>)
    requires |disks| == 2 && |names| == 2 && PairCreated(net, disks, b, names).1.Stopped?
    ensures PairCreated(net, disks, b, names).1 == Stopped(Other) && OtherMet(net, disks)
  {
    hide CreatedFrom, UndoneFrom, OtherMet;
    CreatedFromTells(net, disks, b, names, 0);
    var (made, failed, completed) := CreatedFrom(net, disks, b, names, 0);
    if failed == Some(Other) {
      CreationStops(net, disks, b, names, 0);
    } else {
      UndoStops(net, disks, made, 0, completed, failed != Some(Cleanup));
    }
  }
}
