/** The avatar's identity, its statuses and the names of its stored objects. */
module Domain {

  datatype Option<+T> = None | Some(value: T)

  function Min(a: nat, b: nat): nat { if a < b then a else b }

  /** State of the original: the row is inserted, the object is stored, the upload was lost. */
  datatype UploadStatus = Uploading | Uploaded | UploadFailed

  /** State of thumbnail creation. */
  datatype ProcessingStatus = Pending | Processing | Completed | ProcessingFailed

  datatype ThumbnailSize = Small | Medium

  /** The text of a UUID. */
  datatype Id = Id(text: string)

  const ID_LENGTH := 36

  /** A printed UUID has a fixed length and no path separator in it. */
  predicate WellFormed(id: Id) {
    |id.text| == ID_LENGTH && '/' !in id.text
  }

  /** What an object of the store is: the original of an avatar or one of its thumbnails. */
  datatype Key = Original(id: Id) | Thumb(id: Id, size: ThumbnailSize)

  function UploadAllowedFrom(to: UploadStatus): set<UploadStatus> {
    match to
    case Uploaded => {Uploading}
    case UploadFailed => {Uploading}
    case Uploading => {}
  }

  function ProcessingAllowedFrom(to: ProcessingStatus): set<ProcessingStatus> {
    match to
    case Processing => {Pending, Processing}
    case Completed => {Processing}
    case ProcessingFailed => {Pending, Processing}
    case Pending => {}
  }

  predicate Done(p: ProcessingStatus) {
    p == Completed || p == ProcessingFailed
  }

  /** No transition leads out of a finished status, and none leads back to the initial one. */
  lemma TerminalStatusesHaveNoExit(from: ProcessingStatus, u: UploadStatus)
    ensures Done(from) <==> forall to :: from !in ProcessingAllowedFrom(to)
    ensures u != Uploading <==> forall to :: u !in UploadAllowedFrom(to)
    ensures forall to :: from in ProcessingAllowedFrom(to) ==> to != Pending
  {
    assert Pending in ProcessingAllowedFrom(Processing);
    assert Processing in ProcessingAllowedFrom(Processing);
    assert Uploading in UploadAllowedFrom(Uploaded);
  }

  function ThumbnailSizes(): seq<ThumbnailSize> {
    [Small, Medium]
  }

  /** The keys an avatar can ever own, whether or not its processing has created them. */
  function StorageKeys(id: Id): seq<Key> {
    [Original(id), Thumb(id, Small), Thumb(id, Medium)]
  }

  lemma StorageKeysAreAllKeysOfTheId(id: Id)
    ensures forall k :: k in StorageKeys(id) <==> k.id == id
  {
    var keys := StorageKeys(id);
    forall k: Key | k.id == id ensures k in keys {
      match k {
        case Original(_) => assert k == keys[0];
        case Thumb(_, Small) => assert k == keys[1];
        case Thumb(_, Medium) => assert k == keys[2];
      }
    }
  }

  /** The list as the avatar builds it, one size after another. */
  method CollectStorageKeys(id: Id) returns (keys: seq<Key>)
    ensures keys == StorageKeys(id)
    ensures forall k :: k in keys <==> k.id == id
    ensures forall i, j :: 0 <= i < j < |keys| ==> keys[i] != keys[j]
  {
    var sizes := ThumbnailSizes();
    keys := [Original(id)];
    for n := 0 to |sizes|
      invariant keys == [Original(id)] + seq(n, i requires 0 <= i < n => Thumb(id, sizes[i]))
    {
      keys := keys + [Thumb(id, sizes[n])];
    }
    assert keys[1] == Thumb(id, Small) && keys[2] == Thumb(id, Medium);
    StorageKeysAreAllKeysOfTheId(id);
  }

  function SizeText(z: ThumbnailSize): string {
    match z
    case Small => "100x100"
    case Medium => "300x300"
  }

  function OriginalKey(id: Id): string {
    "originals" + "/" + id.text
  }

  function ThumbnailKey(id: Id, z: ThumbnailSize): string {
    "thumbnails" + "/" + id.text + "/" + SizeText(z)
  }

  /** The name under which an object is stored. */
  function KeyName(k: Key): string {
    match k
    case Original(id) => OriginalKey(id)
    case Thumb(id, z) => ThumbnailKey(id, z)
  }

  predicate StartsWith(s: string, prefix: string) { |s| >= |prefix| && s[..|prefix|] == prefix }

  lemma SuffixDetermines(p: string, s: string, t: string)
    requires p + s == p + t
    ensures s == t
  {
    assert s == (p + s)[|p|..];
    assert t == (p + t)[|p|..];
  }

  lemma ThumbnailNameDetermines(i: Id, y: ThumbnailSize, j: Id, z: ThumbnailSize)
    requires WellFormed(i) && WellFormed(j)
    requires ThumbnailKey(i, y) == ThumbnailKey(j, z)
    ensures i == j && y == z
  {
    var p := "thumbnails" + "/";
    var s, t := i.text + ("/" + SizeText(y)), j.text + ("/" + SizeText(z));
    assert ThumbnailKey(i, y) == p + s && ThumbnailKey(j, z) == p + t;
    SuffixDetermines(p, s, t);
    assert i.text == s[..ID_LENGTH] && j.text == t[..ID_LENGTH];
    SuffixDetermines(i.text, "/" + SizeText(y), "/" + SizeText(z));
    assert ("/" + SizeText(y))[1] == ("/" + SizeText(z))[1];
  }

  /** Printed names never collide, neither between avatars nor between an original and a thumbnail. */
  lemma KeyNamesAreDistinct(j: Key, k: Key)
    requires WellFormed(j.id) && WellFormed(k.id)
    ensures KeyName(j) == KeyName(k) <==> j == k
  {
    if KeyName(j) == KeyName(k) {
      match (j, k) {
        case (Original(a), Original(b)) => SuffixDetermines("originals" + "/", a.text, b.text);
        case (Thumb(a, y), Thumb(b, z)) => ThumbnailNameDetermines(a, y, b, z);
        case _ => assert false;
      }
    }
  }
}
