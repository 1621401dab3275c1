/** Which object answers a request for an image, and for how long the answer may be cached. */
module Content {
  import opened Domain
  import opened Repository

  const CACHE_READY := 24 * 60 * 60
  const CACHE_PENDING := 60
  const CACHE_PLACEHOLDER := 5 * 60
  const CACHE_CURRENT := 5 * 60

  /** Key of a thumbnail, available only once processing has completed. */
  function Thumbnail(r: Row, z: ThumbnailSize): Option<Key> {
    if r.processing == Completed && z in r.thumbs then Some(r.thumbs[z]) else None
  }

  datatype Choice = Choice(key: Key, maxAge: nat)

  /** No size means the original; it also stands in for a thumbnail that does not exist. */
  function Choose(id: Id, r: Row, size: Option<ThumbnailSize>): Choice {
    match size
    case None => Choice(Original(id), CACHE_READY)
    case Some(z) =>
      match Thumbnail(r, z)
      case Some(key) => Choice(key, CACHE_READY)
      case None => Choice(Original(id), if r.processing == ProcessingFailed then CACHE_READY else CACHE_PENDING)
  }

  datatype Image = Placeholder(maxAge: nat) | Stored(key: Key, maxAge: nat)

  /** The row has a thumbnail of this size to offer. */
  predicate Ready(r: Row, z: ThumbnailSize) { r.processing == Completed && z in r.thumbs }

  /** The object, or the placeholder for five minutes when there is none. */
  function StoredOrNot(key: Key, maxAge: nat, stored: set<Key>): Image {
    if key in stored then Stored(key, maxAge) else Placeholder(5 * 60)
  }

  /** The user's current avatar, or the placeholder when there is no row or no object. */
  function UserImage(current: Option<(Id, Row)>, size: Option<ThumbnailSize>, stored: set<Key>): (image: Image)
    ensures image.maxAge <= 5 * 60
    ensures image.Stored? <==> current.Some? && Choose(current.value.0, current.value.1, size).key in stored
    ensures image.Stored? ==> image.key in stored && (image.maxAge == 60 || image.maxAge == 5 * 60)
    ensures current.Some? ==>
              var (id, r) := current.value;
              image == StoredOrNot(if size.Some? && Ready(r, size.value) then r.thumbs[size.value] else Original(id),
                         if size.Some? && !Ready(r, size.value) && r.processing != ProcessingFailed then 60 else 5 * 60,
                         stored)
    ensures current.None? ==> image == Placeholder(5 * 60)
  {
    match current
    case None => Placeholder(CACHE_PLACEHOLDER)
    case Some((id, r)) =>
      var c := Choose(id, r, size);
      if c.key !in stored then Placeholder(CACHE_PLACEHOLDER)
      else Stored(c.key, if c.maxAge < CACHE_CURRENT then c.maxAge else CACHE_CURRENT)
  }

  /** A day-long answer survives every later state of the row. */
  lemma DayLongChoiceIsStable(id: Id, r: Row, r': Row, size: Option<ThumbnailSize>)
    requires Evolved(r, r')
    requires Choose(id, r, size).maxAge == CACHE_READY
    ensures Choose(id, r', size) == Choose(id, r, size)
  {
  }
}
