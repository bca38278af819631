/**
 The encrypted backup store as a state machine over its directory. Every state that a crash could leave
 behind is recorded, so that what holds of all of them holds after a crash at any point.
 */
module Backups {
  import opened Wrappers
  import JsonTrees
  import Protocol
  import Sorting
  import Text

  newtype Byte = x: int | 0 <= x < 256

  type Bytes = seq<Byte>

  const MAX_XML := 16 * 1024 * 1024
  const MAX_ENVELOPE := 23 * 1024 * 1024

  datatype Metadata = Metadata(id: string, date: string, host: string, sha256: string, size: nat)

  datatype Envelope = Envelope(metadata: Metadata, nonce: Bytes, ciphertext: Bytes)

  /** Encryption bound to the metadata, hashing, the envelope's JSON form, and the XML check. */
  datatype Tools = Tools(
    encrypt: (Bytes, Bytes, Bytes, Metadata) -> Bytes, decrypt: (Bytes, Bytes, Bytes, Metadata) -> Option<Bytes>,
    sha256: Bytes -> string, serialize: Envelope -> string, parse: string -> Option<Envelope>, isXml: Bytes -> bool)

  /** Metadata as a creation makes them, but for the hash. */
  predicate IsModest(m: Metadata) {
    |m.id| == 36 && |m.date| <= 40 && |m.host| <= 80 && |m.sha256| == 64 && m.size <= MAX_XML
  }

  /**
   Decryption undoes encryption, which adds a tag of 16 bytes; parsing undoes printing, which encodes the
   ciphertext in base64; a hash has 64 digits. A text stands for its bytes, and a character of the metadata takes
   up to six of them (a control character is escaped), so that 2048 suffice for all but the ciphertext.
   */
  ghost predicate Lawful(t: Tools) {
    && (forall k, n, p, m :: |k| == 32 && |n| == 12 ==> t.decrypt(k, n, t.encrypt(k, n, p, m), m) == Some(p))
    && (forall k, n, p, m :: |t.encrypt(k, n, p, m)| == |p| + 16)
    && (forall e :: t.parse(t.serialize(e)) == Some(e))
    && (forall e: Envelope :: |e.nonce| == 12 && IsModest(e.metadata) ==>
          |t.serialize(e)| <= Base64Length(|e.ciphertext|) + 2048)
    && (forall p :: |t.sha256(p)| == 64)
  }

  function Base64Length(n: nat): nat {
    4 * ((n + 2) / 3)
  }

  /** The envelope of an accepted payload is within the limit under which it is read back. */
  lemma EnvelopeFits(t: Tools, key: Bytes, nonce: Bytes, payload: Bytes, m: Metadata)
    requires Lawful(t) && |nonce| == 12 && IsModest(m) && |payload| <= MAX_XML
    ensures |t.serialize(Envelope(m, nonce, t.encrypt(key, nonce, payload, m)))| <= MAX_ENVELOPE
  {
    var e := Envelope(m, nonce, t.encrypt(key, nonce, payload, m));
    assert |t.serialize(e)| <= Base64Length(|e.ciphertext|) + 2048;
    assert |e.ciphertext| == |payload| + 16;
  }

  // ---- The directory --------------------------------------------------------

  /** The key file, the `.enc` files by identifier, and leftover temporary files. */
  datatype Disk = Disk(key: Option<Bytes>, files: map<string, string>, temps: map<string, string>)

  datatype ErrorKind =
    | AuditFailed | BadIdent | DownloadFailed | Missing | Damaged | KeyUnavailable | KeyLost | Unsaved | Unexpected

  /** `_key()`: the stored key, if it is one. */
  function KeyOf(d: Disk): Option<Bytes> {
    if d.key.Some? && |d.key.value| == 32 then d.key else None
  }

  predicate IsIdent(s: string) {
    Protocol.ValidUuid(JsonTrees.Str(s)) == Some(s)
  }

  /** `_load`: the metadata and bytes of a backup, or what is raised. */
  function Load(t: Tools, d: Disk, ident: string): Result<(Metadata, Bytes), ErrorKind> {
    if ident !in d.files then Failure(Missing)
    else if |d.files[ident]| > MAX_ENVELOPE then Failure(Damaged)
    else match t.parse(d.files[ident])
         case None => Failure(Damaged)
         case Some(e) =>
           if e.metadata.id != ident || |e.nonce| != 12 then Failure(Damaged)
           else match KeyOf(d)
                case None => Failure(KeyUnavailable)
                case Some(key) =>
                  match t.decrypt(key, e.nonce, e.ciphertext, e.metadata)
                  case None => Failure(Damaged)
                  case Some(payload) =>
                    if |payload| != e.metadata.size || t.sha256(payload) != e.metadata.sha256 || !t.isXml(payload)
                    then Failure(Damaged) else Success((e.metadata, payload))
  }

  /** Every backup is a complete envelope under the current key. */
  ghost predicate Sound(t: Tools, d: Disk) {
    forall id :: id in d.files ==> Load(t, d, id).Success?
  }

  /** What a store holds. */
  function Live(t: Tools, d: Disk): map<string, (Metadata, Bytes)> {
    map id | id in d.files && Load(t, d, id).Success? :: Load(t, d, id).value
  }

  /** The key file only ever grows to its 32 bytes, and then stays. */
  ghost predicate KeyKept(before: Disk, after: Disk) {
    before.key.Some? ==>
      after.key.Some? && before.key.value <= after.key.value && (|before.key.value| == 32 ==> after.key == before.key)
  }

  /** A fresh backup and nothing else. */
  ghost predicate Gains(t: Tools, before: Disk, after: Disk, id: string) {
    id !in before.files && id in Live(t, after) && Live(t, after) == Live(t, before)[id := Live(t, after)[id]]
  }

  /** One backup less. */
  ghost predicate Loses(t: Tools, before: Disk, after: Disk, id: string) {
    id in Live(t, before) && Live(t, after) == Live(t, before) - {id}
  }

  /** One atomic change: of no backup, or of one. */
  ghost predicate Shifts(t: Tools, before: Disk, after: Disk) {
    || Live(t, after) == Live(t, before)
    || (exists id :: Gains(t, before, after, id))
    || (exists id :: Loses(t, before, after, id))
  }

  /** States that follow each other: all sound, the key kept, and one backup changed at a time. */
  ghost predicate Recorded(t: Tools, history: seq<Disk>) {
    && history != []
    && (forall i :: 0 <= i < |history| ==> Sound(t, history[i]))
    && (forall i :: 1 <= i < |history| ==> KeyKept(history[i - 1], history[i]))
    && (forall i :: 1 <= i < |history| ==> Shifts(t, history[i - 1], history[i]))
  }

  /** A sound store with backups has its key. */
  lemma SoundHasKey(t: Tools, d: Disk)
    requires Sound(t, d) && d.files != map[]
    ensures KeyOf(d).Some?
  {
    var id :| id in d.files;
    assert Load(t, d, id).Success?;
  }

  lemma SameFilesSameLoads(t: Tools, d: Disk, e: Disk)
    requires d.files == e.files && (KeyOf(d) == KeyOf(e) || d.files == map[])
    ensures Sound(t, d) <==> Sound(t, e)
    ensures Live(t, d) == Live(t, e)
  {
    forall id ensures id in d.files ==> Load(t, d, id) == Load(t, e, id) {
    }
  }

  lemma Extends(t: Tools, history: seq<Disk>, d: Disk)
    requires Recorded(t, history) && Sound(t, d)
    requires KeyKept(history[|history| - 1], d) && Shifts(t, history[|history| - 1], d)
    ensures Recorded(t, history + [d])
  {
    hide Sound, KeyKept, Shifts;
    var longer := history + [d];
    forall i | 1 <= i < |longer| ensures KeyKept(longer[i - 1], longer[i]) && Shifts(t, longer[i - 1], longer[i]) {
      assert longer[i - 1] == history[i - 1];
    }
  }

  // ---- Operations -------------------------------------------------------------

  /** What an operation is about; reading and listing change nothing. */
  datatype Operation = Creating(id: string, backup: (Metadata, Bytes)) | Deleting(id: string) | Looking

  /** A state that an operation started at `before` passes through, its last one included. */
  ghost predicate During(t: Tools, op: Operation, before: Disk, d: Disk) {
    && Sound(t, d)
    && (before.key.Some? ==> d.key == before.key)
    && match op
       case Creating(id, backup) =>
         Live(t, d) == Live(t, before) || (id !in before.files && Live(t, d) == Live(t, before)[id := backup])
       case Deleting(id) => Live(t, d) == Live(t, before) || Live(t, d) == Live(t, before) - {id}
       case Looking => d == before
  }

  /** Every state that was recorded from position `since` on is one of the operation. */
  ghost predicate Through(t: Tools, op: Operation, before: Disk, history: seq<Disk>, since: nat) {
    forall i :: since <= i < |history| ==> During(t, op, before, history[i])
  }

  // ---- Downloading ----------------------------------------------------------

  function Concat(chunks: seq<Bytes>): Bytes {
    if chunks == [] then [] else Concat(chunks[..|chunks| - 1]) + chunks[|chunks| - 1]
  }

  lemma {:induction false} ConcatGrows(chunks: seq<Bytes>, k: nat)
    requires k <= |chunks|
    ensures |Concat(chunks[..k])| <= |Concat(chunks)|
  {
    if k < |chunks| {
      ConcatGrows(chunks[..|chunks| - 1], k);
      assert chunks[..|chunks| - 1][..k] == chunks[..k];
    } else {
      assert chunks[..k] == chunks;
    }
  }

  /** The chunk loop of `_download`: the whole body, unless it is too large, malformed or not a backup. */
  method Collect(t: Tools, chunks: seq<Bytes>) returns (payload: Option<Bytes>)
    ensures payload.Some? <==> |Concat(chunks)| <= MAX_XML && t.isXml(Concat(chunks))
    ensures payload.Some? ==> payload.value == Concat(chunks)
  {
    var size, body := 0, [];
    for i := 0 to |chunks|
      invariant body == Concat(chunks[..i]) && size == |body| <= MAX_XML
    {
      size := size + |chunks[i]|;
      assert chunks[..i + 1][..i] == chunks[..i];
      if size > MAX_XML {
        ConcatGrows(chunks, i + 1);
        return None;
      }
      body := body + chunks[i];
    }
    assert chunks[..|chunks|] == chunks;
    return if t.isXml(body) then Some(body) else None;
  }

  // ---- The store ------------------------------------------------------------

  /**
   What the environment contributes to one creation: identifier, date and host name, random bytes, and where
   the operating system fails. `keyFault` and `writeFault` tell how much is written before a failure.
   */
  datatype Luck = Luck(
    ident: string, date: string, host: string, newKey: Bytes, nonce: Bytes, audited: bool, keyFault: Option<nat>,
    openFails: bool, writeFault: Option<nat>, replaceFails: bool, chmodFails: bool, unlinkFails: bool)

  /** Identifiers are canonical UUIDs, host names are cut to 80 characters, keys have 32 and nonces 12 bytes. */
  predicate IsSized(luck: Luck) {
    IsIdent(luck.ident) && |luck.date| <= 40 && |luck.host| <= 80 && |luck.newKey| == 32 && |luck.nonce| == 12
  }

  class BackupStore {
    const tools: Tools
    var disk: Disk
    ghost var history: seq<Disk>

    /** Opening a store on whatever an earlier process left behind. */
    constructor (tools: Tools, disk: Disk)
      requires Lawful(tools) && Sound(tools, disk)
      ensures Valid() && this.tools == tools && this.disk == disk && history == [disk]
    {
      this.tools, this.disk, this.history := tools, disk, [disk];
    }

    ghost predicate Valid()
      reads this
    {
      Lawful(tools) && Recorded(tools, history) && disk == history[|history| - 1]
    }

    /** One atomic change of the directory. */
    method Become(next: Disk)
      requires Valid() && Sound(tools, next) && KeyKept(disk, next) && Shifts(tools, disk, next)
      modifies this
      ensures Valid() && disk == next && history == old(history) + [next]
    {
      hide Sound, KeyKept, Shifts, Lawful;
      Extends(tools, history, next);
      disk := next;
      history := history + [next];
    }

    // ---- The key ----------------------------------------------------------------

    /** A store without backups, whatever its key file holds. */
    lemma WithoutFiles(d: Disk, e: Disk)
      requires d.files == e.files == map[]
      ensures Sound(tools, e) && Live(tools, e) == Live(tools, d) == map[]
    {
    }

    /** Writing the key file byte by byte; nothing is stored yet, so a partial key harms no backup. */
    method WriteKey(bytes: Bytes, fault: Option<nat>, ghost op: Operation) returns (ok: bool)
      requires Valid() && disk.files == map[] && disk.key.None? && |bytes| == 32 && op.Creating?
      modifies this
      ensures Valid() && old(history) <= history && Through(tools, op, old(disk), history, |old(history)|)
      ensures disk.files == old(disk).files && disk.temps == old(disk).temps
      ensures ok == fault.None? && (ok ==> disk.key == Some(bytes))
      ensures fault.Some? && fault.value < 32 ==> disk.key == Some(bytes[..fault.value])
    {
      hide Sound, Live, Recorded, Lawful;
      var stop := match fault case None => |bytes| case Some(k) => if k < |bytes| then k else |bytes|;
      WithoutFiles(disk, disk.(key := Some([])));
      Become(disk.(key := Some([])));
      for i := 0 to stop
        invariant Valid() && old(history) <= history && Through(tools, op, old(disk), history, |old(history)|)
        invariant disk == old(disk).(key := Some(bytes[..i]))
      {
        assert bytes[..i] <= bytes[..i + 1];
        WithoutFiles(old(disk), disk.(key := Some(bytes[..i + 1])));
        WithoutFiles(disk, disk.(key := Some(bytes[..i + 1])));
        Become(disk.(key := Some(bytes[..i + 1])));
      }
      assert bytes[..|bytes|] == bytes;
      ok := fault.None?;
    }

    /** `_key(create=True)`: the stored key, or a new one if there is none and no backup that needs one. */
    method EnsureKey(luck: Luck, ghost op: Operation) returns (key: Result<Bytes, ErrorKind>)
      requires Valid() && |luck.newKey| == 32 && op.Creating?
      modifies this
      ensures Valid() && old(history) <= history && Through(tools, op, old(disk), history, |old(history)|)
      ensures disk.files == old(disk).files && disk.temps == old(disk).temps
      ensures disk == old(disk) || (old(disk).key.None? && disk.files == map[])
      ensures key.Success? <==> KeyReady(old(disk), luck)
      ensures key.Success? ==> KeyOf(disk) == Some(key.value)
      ensures key.Failure? ==> key.error == if old(disk).key.Some? then KeyUnavailable else Unexpected
      ensures TearsKey(old(disk), luck) ==> disk.key == Some(luck.newKey[..luck.keyFault.value])
    {
      hide Sound, Live, Recorded, Lawful;
      if disk.key.None? {
        NoKeyNoFiles();
        if disk.files != map[] {
          return Failure(KeyLost);
        }
        var ok := WriteKey(luck.newKey, luck.keyFault, op);
        if !ok {
          return Failure(Unexpected);
        }
      }
      var stored := KeyOf(disk);
      return match stored case Some(k) => Success(k) case None => Failure(KeyUnavailable);
    }

    lemma NoKeyNoFiles()
      requires Valid()
      ensures disk.key.None? ==> disk.files == map[]
    {
      NowSound();
      if disk.files != map[] {
        SoundHasKey(tools, disk);
      }
    }

    // ---- Creating ---------------------------------------------------------------

    /** The temporary file grows to its text; the backups stay as they are. */
    method WriteTemp(ident: string, text: string, fault: Option<nat>, ghost op: Operation, ghost before: Disk)
      returns (ok: bool)
      requires Valid() && ident !in disk.temps && op.Creating? && During(tools, op, before, disk)
      modifies this
      ensures Valid() && old(history) <= history && Through(tools, op, before, history, |old(history)|)
      ensures disk.key == old(disk).key && disk.files == old(disk).files
      ensures ok == fault.None? && ident in disk.temps && (ok ==> disk.temps[ident] == text)
      ensures disk.temps == old(disk).temps[ident := disk.temps[ident]]
    {
      hide Sound, Live, Recorded, Lawful;
      var stop := match fault case None => |text| case Some(k) => if k < |text| then k else |text|;
      SetTemp(ident, "", op, before);
      for i := 0 to stop
        invariant Valid() && old(history) <= history && During(tools, op, before, disk)
        invariant Through(tools, op, before, history, |old(history)|)
        invariant disk == old(disk).(temps := old(disk).temps[ident := text[..i]])
      {
        SetTemp(ident, text[..i + 1], op, before);
      }
      assert text[..|text|] == text;
      ok := fault.None?;
    }

    /** One state of the growing temporary file. */
    method SetTemp(ident: string, text: string, ghost op: Operation, ghost before: Disk)
      requires Valid() && op.Creating? && During(tools, op, before, disk)
      modifies this
      ensures Valid() && disk == old(disk).(temps := old(disk).temps[ident := text]) && history == old(history) + [disk]
      ensures During(tools, op, before, disk)
    {
      hide Sound, Live, Recorded, Lawful;
      var next := disk.(temps := disk.temps[ident := text]);
      SameLive(disk, next);
      Become(next);
    }

    /** The envelope that a creation stores. */
    function EnvelopeOf(metadata: Metadata, nonce: Bytes, key: Bytes, payload: Bytes): Envelope {
      Envelope(metadata, nonce, tools.encrypt(key, nonce, payload, metadata))
    }

    function MetadataOf(luck: Luck, payload: Bytes): Metadata {
      Metadata(luck.ident, luck.date, luck.host, tools.sha256(payload), |payload|)
    }

    /** A stored envelope loads as what went into it. */
    lemma StoredLoads(d: Disk, luck: Luck, key: Bytes, payload: Bytes)
      requires Lawful(tools) && KeyOf(d) == Some(key) && luck.ident in d.files && IsSized(luck)
      requires d.files[luck.ident] == tools.serialize(EnvelopeOf(MetadataOf(luck, payload), luck.nonce, key, payload))
      requires |payload| <= MAX_XML && tools.isXml(payload)
      ensures Load(tools, d, luck.ident) == Success((MetadataOf(luck, payload), payload))
    {
      var e := EnvelopeOf(MetadataOf(luck, payload), luck.nonce, key, payload);
      EnvelopeFits(tools, key, luck.nonce, payload, e.metadata);
      assert tools.parse(tools.serialize(e)) == Some(e);
      var c := tools.encrypt(key, luck.nonce, payload, e.metadata);
      assert tools.decrypt(key, luck.nonce, c, e.metadata) == Some(payload);
    }

    /** One more stored envelope: the store stays sound and gains just this backup. */
    lemma StoringAdds(d: Disk, e: Disk, luck: Luck, key: Bytes, payload: Bytes)
      requires Lawful(tools) && Sound(tools, d) && KeyOf(d) == Some(key) && IsSized(luck) && luck.ident !in d.files
      requires |payload| <= MAX_XML && tools.isXml(payload) && e.key == d.key
      requires var text := tools.serialize(EnvelopeOf(MetadataOf(luck, payload), luck.nonce, key, payload));
               e.files == d.files[luck.ident := text]
      ensures Sound(tools, e)
      ensures Live(tools, e) == Live(tools, d)[luck.ident := (MetadataOf(luck, payload), payload)]
      ensures Gains(tools, d, e, luck.ident)
    {
      StoredLoads(e, luck, key, payload);
      forall id | id in e.files && id != luck.ident ensures Load(tools, e, id) == Load(tools, d, id) {
      }
    }

    /** The first key is cut short. */
    predicate TearsKey(d: Disk, luck: Luck) {
      d.key.None? && luck.keyFault.Some? && luck.keyFault.value < 32
    }

    /** There is a key, or one can be made. */
    predicate KeyReady(d: Disk, luck: Luck) {
      KeyOf(d).Some? || (d.key.None? && luck.keyFault.None?)
    }

    /** Nothing fails before the new envelope is in place. */
    predicate Stores(d: Disk, luck: Luck) {
      KeyReady(d, luck) && !luck.openFails && luck.writeFault.None? && !luck.replaceFails
    }

    function OperationOf(luck: Luck, payload: Bytes): Operation {
      Creating(luck.ident, (MetadataOf(luck, payload), payload))
    }

    /** The critical section of `create`: key, envelope, temporary file, replacement. */
    method Store(luck: Luck, payload: Bytes) returns (r: Result<Metadata, ErrorKind>)
      requires Valid() && luck.ident !in disk.files && luck.ident !in disk.temps
      requires IsSized(luck) && |payload| <= MAX_XML && tools.isXml(payload)
      modifies this
      ensures Valid() && old(history) <= history
      ensures Through(tools, OperationOf(luck, payload), old(disk), history, |old(history)|)
      ensures Live(tools, disk)
              == if Stores(old(disk), luck)
                 then Live(tools, old(disk))[luck.ident := (MetadataOf(luck, payload), payload)]
                 else Live(tools, old(disk))
      ensures r.Success? <==> Stores(old(disk), luck) && !luck.chmodFails
      ensures r.Success? ==> r.value == MetadataOf(luck, payload)
      ensures Stores(old(disk), luck) && luck.chmodFails ==> r == Failure(Unsaved)
      ensures !KeyReady(old(disk), luck) ==> r == Failure(if old(disk).key.Some? then KeyUnavailable else Unexpected)
      ensures old(disk).key.Some? && !KeyReady(old(disk), luck) ==> disk == old(disk)
      ensures TearsKey(old(disk), luck) ==> IsTorn(disk)
    {
      hide Valid, Load, Live, Sound, MetadataOf, EnvelopeOf, IsIdent;
      ghost var op := OperationOf(luck, payload);
      var key := EnsureKey(luck, op);
      KeyKeepsLive(old(disk), disk);
      NowSound();
      if key.Failure? {
        return Failure(key.error);
      }
      if luck.openFails {
        return Failure(Unsaved);
      }
      var text := tools.serialize(EnvelopeOf(MetadataOf(luck, payload), luck.nonce, key.value, payload));
      ghost var keyed := disk;
      var written := WriteTemp(luck.ident, text, luck.writeFault, op, old(disk));
      NowSound();
      SameLive(keyed, disk);
      if !written || luck.replaceFails {
        RemoveTemp(luck.ident, luck.unlinkFails, op, old(disk));
        SameLive(keyed, disk);
        return Failure(if luck.unlinkFails then Unexpected else Unsaved);
      }
      Replace(luck, key.value, payload, text);
      if luck.chmodFails {
        return Failure(Unsaved);
      }
      return Success(MetadataOf(luck, payload));
    }

    /** `os.replace`: the complete envelope takes its place at once. */
    method Replace(luck: Luck, key: Bytes, payload: Bytes, text: string)
      requires Valid() && KeyOf(disk) == Some(key) && luck.ident !in disk.files && IsSized(luck)
      requires |payload| <= MAX_XML && tools.isXml(payload)
      requires text == tools.serialize(EnvelopeOf(MetadataOf(luck, payload), luck.nonce, key, payload))
      modifies this
      ensures Valid() && history == old(history) + [disk] && disk.key == old(disk).key && Sound(tools, disk)
      ensures Live(tools, disk) == Live(tools, old(disk))[luck.ident := (MetadataOf(luck, payload), payload)]
    {
      hide Load, Live, Sound;
      var next := disk.(temps := disk.temps - {luck.ident}, files := disk.files[luck.ident := text]);
      NowSound();
      StoringAdds(disk, next, luck, key, payload);
      assert Shifts(tools, disk, next) by {
        hide Gains;
        assert Gains(tools, disk, next, luck.ident);
      }
      Become(next);
    }

    lemma NowSound()
      requires Valid()
      ensures Sound(tools, disk) && Lawful(tools)
    {
    }

    lemma SameLive(d: Disk, e: Disk)
      requires d.files == e.files && d.key == e.key
      ensures Live(tools, d) == Live(tools, e) && (Sound(tools, d) <==> Sound(tools, e))
    {
      SameFilesSameLoads(tools, d, e);
    }

    lemma KeyKeepsLive(d: Disk, e: Disk)
      requires d == e || d.files == e.files == map[]
      ensures Live(tools, d) == Live(tools, e)
    {
      SameFilesSameLoads(tools, d, e);
    }

    /** The `finally` clause. */
    method RemoveTemp(ident: string, fails: bool, ghost op: Operation, ghost before: Disk)
      requires Valid() && op.Creating? && During(tools, op, before, disk)
      modifies this
      ensures Valid() && old(history) <= history && Through(tools, op, before, history, |old(history)|)
      ensures disk.key == old(disk).key && disk.files == old(disk).files
    {
      hide Sound, Live, Recorded, Lawful;
      if !fails && ident in disk.temps {
        var next := disk.(temps := disk.temps - {ident});
        SameLive(disk, next);
        Become(next);
      }
    }

    /** The download is recorded and yields a backup document. */
    predicate Downloads(chunks: Option<seq<Bytes>>, luck: Luck) {
      luck.audited && chunks.Some? && |Concat(chunks.value)| <= MAX_XML && tools.isXml(Concat(chunks.value))
    }

    /**
     `create`. Exactly if the download is good and nothing fails up to the replacement, the store gains exactly
     the downloaded backup; otherwise the backups are as they were. Success is reported exactly if the final
     `chmod` works, too: where only that fails the backup is stored and yet reported as not saved.
     */
    method Create(chunks: Option<seq<Bytes>>, luck: Luck) returns (r: Result<Metadata, ErrorKind>)
      requires Valid() && luck.ident !in disk.files && luck.ident !in disk.temps && IsSized(luck)
      modifies this
      ensures Valid() && old(history) <= history
      ensures Downloads(chunks, luck) ==>
                Through(tools, OperationOf(luck, Concat(chunks.value)), old(disk), history, |old(history)|)
      ensures !Downloads(chunks, luck) ==> history == old(history) && disk == old(disk)
      ensures Live(tools, disk)
              == if Downloads(chunks, luck) && Stores(old(disk), luck)
                 then var payload := Concat(chunks.value);
                      Live(tools, old(disk))[luck.ident := (MetadataOf(luck, payload), payload)]
                 else Live(tools, old(disk))
      ensures r.Success? <==> Downloads(chunks, luck) && Stores(old(disk), luck) && !luck.chmodFails
      ensures r.Success? ==> r.value == MetadataOf(luck, Concat(chunks.value))
      ensures Downloads(chunks, luck) && Stores(old(disk), luck) && luck.chmodFails ==> r == Failure(Unsaved)
      ensures !Downloads(chunks, luck) ==> r == Failure(if luck.audited then DownloadFailed else AuditFailed)
      ensures Downloads(chunks, luck) && IsTorn(old(disk)) ==> r == Failure(KeyUnavailable) && disk == old(disk)
      ensures Downloads(chunks, luck) && TearsKey(old(disk), luck) ==> r == Failure(Unexpected) && IsTorn(disk)
    {
      hide Load, Live, Sound, Recorded, Lawful, Stores;
      if !luck.audited {
        return Failure(AuditFailed);
      }
      if chunks.None? {
        return Failure(DownloadFailed);
      }
      var payload := Collect(tools, chunks.value);
      if payload.None? {
        return Failure(DownloadFailed);
      }
      TornIsNotReady(luck);
      r := Store(luck, payload.value);
    }

    lemma TornIsNotReady(luck: Luck)
      ensures IsTorn(disk) ==> disk.key.Some? && !KeyReady(disk, luck)
    {
    }

    // ---- Reading and deleting -----------------------------------------------------

    /** `read`: the bytes that were created. */
    method Read(ident: string, audited: bool) returns (r: Result<Bytes, ErrorKind>)
      requires Valid()
      ensures r.Success? <==> IsIdent(ident) && audited && ident in Live(tools, disk)
      ensures r.Success? ==> r.value == Live(tools, disk)[ident].1
    {
      if !IsIdent(ident) {
        return Failure(BadIdent);
      }
      if !audited {
        return Failure(AuditFailed);
      }
      var loaded := Load(tools, disk, ident);
      if loaded.Failure? {
        return Failure(loaded.error);
      }
      return Success(loaded.value.1);
    }

    /** `delete`: one authenticated backup goes, and no other. */
    method Delete(ident: string, audited: bool, unlinkFails: bool) returns (r: Result<string, ErrorKind>)
      requires Valid()
      modifies this
      ensures Valid() && old(history) <= history
      ensures r.Success? <==> IsIdent(ident) && audited && ident in Live(tools, old(disk)) && !unlinkFails
      ensures r.Success? ==> Live(tools, disk) == Live(tools, old(disk)) - {ident}
      ensures r.Failure? ==> disk == old(disk) && history == old(history)
      ensures Through(tools, Deleting(ident), old(disk), history, |old(history)|)
    {
      if !IsIdent(ident) {
        return Failure(BadIdent);
      }
      if !audited {
        return Failure(AuditFailed);
      }
      var loaded := Load(tools, disk, ident);
      if loaded.Failure? {
        return Failure(loaded.error);
      }
      if unlinkFails {
        return Failure(Unsaved);
      }
      var next := disk.(files := disk.files - {ident});
      RemovingRemoves(disk, next, ident);
      assert Loses(tools, disk, next, ident);
      Become(next);
      return Success(ident);
    }

    lemma RemovingRemoves(d: Disk, e: Disk, ident: string)
      requires e == d.(files := d.files - {ident})
      ensures Sound(tools, d) ==> Sound(tools, e)
      ensures Live(tools, e) == Live(tools, d) - {ident}
    {
      forall id | id in e.files ensures Load(tools, e, id) == Load(tools, d, id) {
      }
    }

    // ---- Listing ------------------------------------------------------------------

    /** The loop meets the backups in the order of their identifiers. */
    lemma ListedInOrder(names: seq<string>)
      requires forall id :: id in Text.SortWords(names) ==> id in Live(tools, disk)
      ensures Sorting.Sorted(Listed(Live(tools, disk), Text.SortWords(names)), ById)
    {
      hide Load;
      var ordered := Text.SortWords(names);
      Text.LeIsTotalOrder(names);
      Sorting.SortSorts(names, Text.Le);
      forall id | id in ordered ensures Live(tools, disk)[id].0.id == id {
        LiveIsNamed(tools, disk, id);
      }
      ListedAt(Live(tools, disk), ordered);
    }

    /**
     `list`: the metadata of exactly the live backups, newest first, and those of one date by identifier, for the
     sort is stable.
     `names` is the directory listing, which holds every `.enc` file once.
     */
    method List(names: seq<string>) returns (r: Result<seq<Metadata>, ErrorKind>)
      requires Valid()
      requires forall i, j :: 0 <= i < j < |names| ==> names[i] != names[j]
      requires forall id :: id in names <==> id in disk.files
      ensures forall id :: id in Text.SortWords(names) ==> id in Live(tools, disk)
      ensures r == Success(Sorting.Sort(Listed(Live(tools, disk), Text.SortWords(names)), NewerFirst))
      ensures Sorting.Sorted(r.value, NewerFirst)
      ensures multiset(r.value) == multiset(Listed(Live(tools, disk), Text.SortWords(names)))
      ensures Sorting.StablySorted(r.value, NewerFirst, ById)
    {
      hide Load, Recorded, Lawful;
      var ordered := Text.SortWords(names);
      Sorting.SortPermutes(names, Text.Le);
      forall id | id in ordered ensures id in Live(tools, disk) {
        assert id in multiset(ordered);
        NowSound();
      }
      var results: seq<Metadata> := [];
      for i := 0 to |ordered|
        invariant results == Listed(Live(tools, disk), ordered[..i])
      {
        assert ordered[i] in Live(tools, disk) && ordered[..i + 1][..i] == ordered[..i];
        match Load(tools, disk, ordered[i])
        case Failure(error) =>
          return Failure(error);
        case Success(loaded) =>
          results := results + [loaded.0];
      }
      assert ordered[..|ordered|] == ordered;
      NewerFirstIsPreorder();
      Sorting.SortSorts(results, NewerFirst);
      Sorting.SortPermutes(results, NewerFirst);
      ListedInOrder(names);
      Sorting.SortIsStable(results, NewerFirst, ById);
      return Success(Sorting.Sort(results, NewerFirst));
    }
  }

  /** The metadata of given backups, in order. */
  function Listed(live: map<string, (Metadata, Bytes)>, idents: seq<string>): seq<Metadata>
    requires forall id :: id in idents ==> id in live
  {
    if idents == [] then [] else Listed(live, idents[..|idents| - 1]) + [live[idents[|idents| - 1]].0]
  }

  lemma {:induction false} ListedAt(live: map<string, (Metadata, Bytes)>, idents: seq<string>)
    requires forall id :: id in idents ==> id in live
    ensures |Listed(live, idents)| == |idents|
    ensures forall i :: 0 <= i < |idents| ==> Listed(live, idents)[i] == live[idents[i]].0
  {
    if idents != [] {
      ListedAt(live, idents[..|idents| - 1]);
    }
  }

  /** A backup is stored under the identifier in its metadata. */
  lemma LiveIsNamed(t: Tools, d: Disk, id: string)
    requires id in Live(t, d)
    ensures Live(t, d)[id].0.id == id
  {
  }

  predicate ById(a: Metadata, b: Metadata) {
    Text.Le(a.id, b.id)
  }

  /** `key=date, reverse=True`; equal dates keep their order. */
  predicate NewerFirst(a: Metadata, b: Metadata) {
    Text.Le(b.date, a.date)
  }

  lemma NewerFirstIsPreorder()
    ensures Sorting.TotalPreorder(NewerFirst)
  {
    Text.LeIsTotalOrder([]);
  }

  // ---- Crash points -----------------------------------------------------------------

  /** From any recorded state to any later one, a complete key stays what it was. */
  lemma {:induction false} KeyNeverChanges(t: Tools, history: seq<Disk>, i: nat, j: nat)
    requires Recorded(t, history) && i <= j < |history|
    ensures KeyOf(history[i]).Some? ==> KeyOf(history[j]) == KeyOf(history[i])
    decreases j
  {
    hide Sound, Shifts;
    if i < j {
      KeyNeverChanges(t, history, i, j - 1);
      assert KeyKept(history[j - 1], history[j - 1 + 1]);
    }
  }

  /** Step `k` between two recorded states removes just this backup. */
  ghost predicate RemovedAt(t: Tools, history: seq<Disk>, i: nat, j: nat, k: int, id: string)
    requires j < |history|
  {
    i <= k < j && Loses(t, history[k], history[k + 1], id)
  }

  /**
   Between any two crash points a backup stays readable with the same bytes unless it was removed by itself
   in a single step, and while a backup exists the key stays.
   */
  lemma {:induction false} CrashSafe(t: Tools, history: seq<Disk>, i: nat, j: nat, id: string)
    requires Recorded(t, history) && i <= j < |history| && id in history[i].files
    ensures id in Live(t, history[i]) && KeyOf(history[i]).Some? && KeyOf(history[j]) == KeyOf(history[i])
    ensures || (id in Live(t, history[j]) && Live(t, history[j])[id] == Live(t, history[i])[id])
            || exists k :: RemovedAt(t, history, i, j, k, id)
    decreases j
  {
    assert Load(t, history[i], id).Success? && id in Live(t, history[i]);
    SoundHasKey(t, history[i]);
    hide Load, Live, Sound, Loses, Shifts;
    KeyNeverChanges(t, history, i, j);
    if i < j {
      var before := j - 1;
      CrashSafe(t, history, i, before, id);
      assert Shifts(t, history[before], history[before + 1]);
      if at :| RemovedAt(t, history, i, before, at, id) {
        assert RemovedAt(t, history, i, j, at, id);
      } else {
        ShiftKeepsOrLoses(t, history[before], history[j], id);
        if Loses(t, history[before], history[j], id) {
          assert RemovedAt(t, history, i, j, before, id);
        }
      }
    }
  }

  /** One atomic change keeps a backup or is its removal. */
  lemma ShiftKeepsOrLoses(t: Tools, before: Disk, after: Disk, id: string)
    requires Shifts(t, before, after) && id in Live(t, before)
    ensures (id in Live(t, after) && Live(t, after)[id] == Live(t, before)[id]) || Loses(t, before, after, id)
  {
    hide Load;
    LiveIsStored(t, before, id);
  }

  // ---- Whole lives of a store -------------------------------------------------------

  /**
   Operations one after the other, each from the state in which the one before it ended or in which the
   process stopped, at any of the states it passed through, and the store was opened again.
   */
  ghost predicate Life(t: Tools, disks: seq<Disk>, ops: seq<Operation>) {
    && |disks| == |ops| + 1
    && Sound(t, disks[0])
    && forall k :: 0 <= k < |ops| ==> During(t, ops[k], disks[k], disks[k + 1])
  }

  lemma LifePrefix(t: Tools, disks: seq<Disk>, ops: seq<Operation>)
    requires Life(t, disks, ops) && ops != []
    ensures var k := |ops| - 1; Life(t, disks[..k + 1], ops[..k]) && During(t, ops[k], disks[k], disks[k + 1])
  {
    hide During, Sound;
    var k := |ops| - 1;
    forall l | 0 <= l < k ensures During(t, ops[..k][l], disks[..k + 1][l], disks[..k + 1][l + 1]) {
      assert During(t, ops[l], disks[l], disks[l + 1]);
    }
  }

  lemma {:induction false} LifeIsSound(t: Tools, disks: seq<Disk>, ops: seq<Operation>)
    requires Life(t, disks, ops)
    ensures Sound(t, disks[|ops|])
  {
    if ops != [] {
      assert During(t, ops[|ops| - 1], disks[|ops| - 1], disks[|ops| - 1 + 1]);
    }
  }

  /** A backup that is there and is not deleted stays, with its metadata and bytes, through stops at any point. */
  lemma {:induction false} BackupsStay(t: Tools, disks: seq<Disk>, ops: seq<Operation>, id: string)
    requires Life(t, disks, ops) && id in Live(t, disks[0])
    requires forall k :: 0 <= k < |ops| ==> ops[k] != Deleting(id)
    ensures id in Live(t, disks[|ops|]) && Live(t, disks[|ops|])[id] == Live(t, disks[0])[id]
  {
    hide Sound, Load;
    if ops != [] {
      var k := |ops| - 1;
      LifePrefix(t, disks, ops);
      BackupsStay(t, disks[..k + 1], ops[..k], id);
      assert ops[k] != Deleting(id);
      LiveIsStored(t, disks[k], id);
    }
  }

  lemma LiveIsStored(t: Tools, d: Disk, id: string)
    requires id in Live(t, d)
    ensures id in d.files
  {
  }

  /** What can be read was there from the start or is just what the last creation of that identifier stored. */
  lemma {:induction false} BackupsWereCreated(t: Tools, disks: seq<Disk>, ops: seq<Operation>, id: string)
    requires Life(t, disks, ops) && id in Live(t, disks[|ops|])
    ensures var backup := Live(t, disks[|ops|])[id];
            || (id in Live(t, disks[0]) && Live(t, disks[0])[id] == backup)
            || exists k :: 0 <= k < |ops| && ops[k] == Creating(id, backup)
  {
    hide Sound, Load;
    if ops != [] {
      var k := |ops| - 1;
      LifePrefix(t, disks, ops);
      if id in Live(t, disks[k]) && Live(t, disks[k])[id] == Live(t, disks[k + 1])[id] {
        BackupsWereCreated(t, disks[..k + 1], ops[..k], id);
      } else {
        assert ops[k] == Creating(id, Live(t, disks[k + 1])[id]);
      }
    }
  }

  /** A key file that is no key. */
  predicate IsTorn(d: Disk) {
    d.key.Some? && |d.key.value| != 32
  }

  /** A key file found at the start of an operation is never touched again. */
  lemma {:induction false} KeyFileStays(t: Tools, disks: seq<Disk>, ops: seq<Operation>)
    requires Life(t, disks, ops) && disks[0].key.Some?
    ensures disks[|ops|].key == disks[0].key
  {
    hide Sound, Live;
    if ops != [] {
      LifePrefix(t, disks, ops);
      KeyFileStays(t, disks[..|ops|], ops[..|ops| - 1]);
    }
  }

  /** A key file torn by a crash is never replaced, and no backup can ever be stored beside it. */
  lemma TornKeyIsFinal(t: Tools, disks: seq<Disk>, ops: seq<Operation>)
    requires Life(t, disks, ops) && IsTorn(disks[0])
    ensures IsTorn(disks[|ops|]) && disks[|ops|].key == disks[0].key && disks[|ops|].files == map[]
  {
    KeyFileStays(t, disks, ops);
    LifeIsSound(t, disks, ops);
    if disks[|ops|].files != map[] {
      SoundHasKey(t, disks[|ops|]);
    }
  }

}
