/**
 * The persisted caches, seen from the linter: one store per Cache(django_path, database,
 * cache_path), each a map from a migration file's MD5 hex digest to an entry.
 */
module CacheStore {
  import opened LinterTypes

  /** The arguments a Cache is constructed with; they name the file it is kept in. */
  datatype StoreId = StoreId(djangoPath: string, database: string, cachePath: string)

  /** Every cache file on disk, by the store it belongs to. */
  type Disk = map<StoreId, map<string, Entry>>

  /** Cache.load: the store's saved contents, or nothing when it was never saved. */
  function Load(disk: Disk, id: StoreId): map<string, Entry>
  {
    if id in disk then disk[id] else map[]
  }

  /**
   * Cache.save: the store is replaced wholesale, so loading it gives back exactly what was
   * saved (entries not saved again are gone), and every other store, such as the one of
   * another database, is untouched.
   */
  function Save(disk: Disk, id: StoreId, contents: map<string, Entry>): (d: Disk)
    ensures Load(d, id) == contents
    ensures forall other :: other != id ==> Load(d, other) == Load(disk, other)
  {
    disk[id := contents]
  }

  /**
   * Saving back exactly what a store loads changes nothing that any store loads: a store
   * never saved loads empty, and saving that empty map keeps it empty.
   */
  lemma SaveLoadedIsNoop(disk: Disk, id: StoreId)
    ensures forall other :: Load(Save(disk, id, Load(disk, id)), other) == Load(disk, other)
  {
  }
}
