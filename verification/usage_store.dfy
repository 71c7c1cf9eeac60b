/**
 The usage file: a JSON object with the keys `total_upload` and
 `total_download`, read once at start-up and rewritten after every change
 of the totals. The file is modelled as the value the loader sees, not as
 bytes on a disk.
 */
module UsageStore {
  import opened Counters

  const UploadKey: string := "total_upload"
  const DownloadKey: string := "total_download"

  /** What parsing the file can yield, as far as the loader is concerned:
      an object (its values taken to be natural numbers), or any other JSON
      value, on which the loader's key lookup raises. */
  datatype Json = Object(fields: map<string, nat>) | NonObject

  /** The usage file as found at start-up. `Unreadable` covers every failure
      to open, read or parse it. */
  datatype StoredFile = Absent | Unreadable | Parsed(doc: Json)

  /** A dictionary lookup with a default, as the loader performs it. */
  function GetOr(fields: map<string, nat>, key: string, default: nat): (v: nat)
    ensures key in fields ==> v == fields[key]
    ensures key !in fields ==> v == default
  {
    if key in fields then fields[key] else default
  }

  /** The file parsed to a JSON object, so the loader's key lookups do not
      raise (either key may still be missing). */
  predicate Usable(file: StoredFile)
  {
    file.Parsed? && file.doc.Object?
  }

  /** Totals to start from. A missing, unreadable or non-object file seeds
      them from the current counters; an object supplies each total it
      holds, and the current counter stands in for a missing key. */
  function Load(file: StoredFile, current: Snapshot): (t: Totals)
    ensures !Usable(file) ==> t == Totals(current.sent, current.recv)
    ensures Usable(file) && UploadKey in file.doc.fields ==> t.up == file.doc.fields[UploadKey]
    ensures Usable(file) && UploadKey !in file.doc.fields ==> t.up == current.sent
    ensures Usable(file) && DownloadKey in file.doc.fields ==> t.down == file.doc.fields[DownloadKey]
    ensures Usable(file) && DownloadKey !in file.doc.fields ==> t.down == current.recv
  {
    match file
    case Absent => Totals(current.sent, current.recv)
    case Unreadable => Totals(current.sent, current.recv)
    case Parsed(NonObject) => Totals(current.sent, current.recv)
    case Parsed(Object(fields)) =>
      Totals(GetOr(fields, UploadKey, current.sent), GetOr(fields, DownloadKey, current.recv))
  }

  /** The record written for the in-memory totals. */
  function Save(t: Totals): (doc: Json)
    ensures doc.Object?
    ensures doc.fields.Keys == {UploadKey, DownloadKey}
    ensures doc.fields[UploadKey] == t.up && doc.fields[DownloadKey] == t.down
  {
    Object(map[UploadKey := t.up, DownloadKey := t.down])
  }

  /** A saved record loads back as the totals it was saved from, whatever
      counters are offered as fallback. */
  lemma SaveLoadRoundTrip(t: Totals, current: Snapshot)
    ensures Load(Parsed(Save(t)), current) == t
  {
  }

  /** Loading, saving what was loaded, and loading again changes nothing. */
  lemma LoadSaveLoadIdempotent(file: StoredFile, current: Snapshot, later: Snapshot)
    ensures Load(Parsed(Save(Load(file, current))), later) == Load(file, current)
  {
    SaveLoadRoundTrip(Load(file, current), later);
  }

  /** The file alone decides the loaded totals exactly when it is an object
      holding both keys; otherwise some choice of current counters shows
      through. */
  lemma {:induction false} LoadIgnoresCountersIffComplete(file: StoredFile)
    ensures (Usable(file) && UploadKey in file.doc.fields && DownloadKey in file.doc.fields)
        <==> (forall c, c' :: Load(file, c) == Load(file, c'))
  {
    var zero, one := Snapshot(0, 0), Snapshot(1, 1);
    if !Usable(file) {
      assert Load(file, zero).up != Load(file, one).up;
    } else if UploadKey !in file.doc.fields {
      assert Load(file, zero).up != Load(file, one).up;
    } else if DownloadKey !in file.doc.fields {
      assert Load(file, zero).down != Load(file, one).down;
    }
  }
}
