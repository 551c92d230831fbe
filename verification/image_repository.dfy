/** The persisted image cache: one entry per recipe id holding the image bytes
    and the moment they expire. Storage is a map keyed by reference id; a
    stored record's data and expiry attributes are optional, as in the
    persistent store. Storage failures are reported, never thrown. */
module ImageRepository {
  import opened Wrappers
  import opened Foundation

  /** A cache entry as callers see it. */
  datatype ImageData = ImageData(referenceId: string, data: Data, expire: Date)

  /** A stored record. */
  datatype StoredImage = StoredImage(imageData: Option<Data>, expire: Option<Date>)

  type Store = map<string, StoredImage>

  /** Where the storage layer fails during an add, if it does. */
  datatype StorageFault = NoFault | FetchFault | SaveFault

  predicate Complete(e: StoredImage) {
    e.imageData.Some? && e.expire.Some?
  }

  /** Every stored record has both its attributes. */
  predicate WellFormed(store: Store) {
    forall k :: k in store ==> Complete(store[k])
  }

  /** Exact-key lookup. No entry, an incomplete record or a failed fetch is
      `None`; otherwise the stored data and expiry come back as they are,
      expired or not. */
  function GetImageData(store: Store, referenceID: string, fetchFails: bool): (r: Option<ImageData>)
    ensures r.Some? <==> !fetchFails && referenceID in store && Complete(store[referenceID])
    ensures r.Some? ==> && r.value.referenceId == referenceID
                        && store[referenceID] == StoredImage(Some(r.value.data), Some(r.value.expire))
  {
    if fetchFails || referenceID !in store then None
    else
      var stored := store[referenceID];
      if stored.imageData.None? || stored.expire.None? then None
      else Some(ImageData(referenceID, stored.imageData.value, stored.expire.value))
  }

  /** The reported success and the store after an add. */
  datatype AddResult = AddResult(saved: bool, store: Store)

  /** Upsert: an existing record for the id has its data and expiry
      overwritten in place, otherwise a record is inserted; any storage
      failure reports `false` and leaves the store as it was. Other ids are
      never touched. */
  function AddImageData(store: Store, imageData: ImageData, fault: StorageFault): (r: AddResult)
    ensures r.saved <==> fault == NoFault
    ensures !r.saved ==> r.store == store
    ensures r.saved ==> && imageData.referenceId in r.store
                        && r.store[imageData.referenceId] == StoredImage(Some(imageData.data), Some(imageData.expire))
                        && r.store.Keys == store.Keys + {imageData.referenceId}
    ensures forall k :: k in store && k != imageData.referenceId ==> k in r.store && r.store[k] == store[k]
  {
    if fault != NoFault then AddResult(false, store)
    else AddResult(true, store[imageData.referenceId := StoredImage(Some(imageData.data), Some(imageData.expire))])
  }

  /** A get right after a successful add returns exactly what was written. */
  lemma PutThenGet(store: Store, imageData: ImageData)
    ensures AddImageData(store, imageData, NoFault).saved
    ensures GetImageData(AddImageData(store, imageData, NoFault).store, imageData.referenceId, false) == Some(imageData)
  {
  }

  /** An add for one id leaves every other id's lookup as it was. */
  lemma AddKeepsOtherKeys(store: Store, imageData: ImageData, fault: StorageFault, k: string, fetchFails: bool)
    requires k != imageData.referenceId
    ensures GetImageData(AddImageData(store, imageData, fault).store, k, fetchFails) == GetImageData(store, k, fetchFails)
  {
  }

  /** An upsert never makes a second record: the count grows only for a new id. */
  lemma UpsertCount(store: Store, imageData: ImageData)
    ensures |AddImageData(store, imageData, NoFault).store| ==
            |store| + (if imageData.referenceId in store then 0 else 1)
  {
  }

  /** Adds keep every record complete, and in a store of complete records a
      healthy lookup finds exactly the stored ids. */
  lemma AddPreservesWellFormed(store: Store, imageData: ImageData, fault: StorageFault, k: string)
    requires WellFormed(store)
    ensures WellFormed(AddImageData(store, imageData, fault).store)
    ensures GetImageData(store, k, false).Some? <==> k in store
  {
  }

  /** Two adds for the same id: the later one wins whole, never a mix of
      the two. */
  lemma LastWriteWins(store: Store, first: ImageData, second: ImageData)
    requires first.referenceId == second.referenceId
    ensures var once := AddImageData(store, first, NoFault).store;
            GetImageData(AddImageData(once, second, NoFault).store, second.referenceId, false) == Some(second)
  {
  }
}
