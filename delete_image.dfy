/** `DeleteImageUseCase`: remove an image by the path it is served under. */
module DeleteImage {
  import Config
  import opened FileStorage
  import opened GetImage

  /** `execute(path)`: the object under the path's key (the same mapping as for reading) is removed; `true` when it existed. */
  method Execute(storage: ObjectStore, cfg: Config.Settings, path: string) returns (deleted: bool)
    modifies storage
    ensures deleted <==> PathToKey(cfg.uploadsKeyPrefix, path) in old(storage.objects)
    ensures storage.objects == old(storage.objects) - {PathToKey(cfg.uploadsKeyPrefix, path)}
    ensures !deleted ==> storage.objects == old(storage.objects)
  {
    var key := PathToKey(cfg.uploadsKeyPrefix, path);
    deleted := storage.Delete(key);
  }
}
