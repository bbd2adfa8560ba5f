/** `GetImageUseCase`: read an image back by the path it is served under. */
module GetImage {
  import opened Wrappers
  import Config
  import opened PyStr
  import opened FileStorage

  /**
   * `_path_to_key`: leading slashes dropped; a path already under
   * `prefix/` is the key itself, any other is put under it (left as it is
   * when the trimmed prefix is empty).
   */
  function PathToKey(prefix: string, path: string): (key: string)
    ensures var p := Strip(prefix, Slash);
      && (StartsWith(LStrip(path, Slash), p + "/") ==> key == LStrip(path, Slash))
      && (!StartsWith(LStrip(path, Slash), p + "/") && p != [] ==> key == p + "/" + LStrip(path, Slash))
      && (p == [] ==> key == LStrip(path, Slash))
  {
    var rest := LStrip(path, Slash);
    var p := Strip(prefix, Slash);
    if StartsWith(rest, p + "/") then rest
    else if p != [] then p + "/" + rest
    else rest
  }

  /** Stripping the leading slashes of a text that has none changes nothing. */
  lemma LStripNone(s: string)
    requires s == [] || s[0] != '/'
    ensures LStrip(s, Slash) == s
  {
  }

  /** A key names an object under the prefix when the prefix is non-empty, and mapping a key again gives the same key. */
  lemma PathToKeyIdempotent(prefix: string, path: string)
    ensures var key := PathToKey(prefix, path);
      && (Strip(prefix, Slash) != [] ==> StartsWith(key, Strip(prefix, Slash) + "/"))
      && PathToKey(prefix, key) == key
  {
    var p := Strip(prefix, Slash);
    var rest := LStrip(path, Slash);
    var key := PathToKey(prefix, path);
    if StartsWith(rest, p + "/") {
      LStripNone(key);
    } else if p != [] {
      assert key[0] == p[0];
      LStripNone(key);
      assert key[..|p + "/"|] == p + "/";
    } else {
      LStripNone(key);
    }
  }

  /** A key that already starts with the trimmed prefix and a slash is taken as it is. */
  lemma KeyUnderPrefix(prefix: string, key: string)
    requires Strip(prefix, Slash) != [] && StartsWith(key, Strip(prefix, Slash) + "/")
    ensures PathToKey(prefix, key) == key
  {
    var p := Strip(prefix, Slash);
    assert key[0] == p[0];
    LStripNone(key);
  }

  /** Leading slashes do not change the key a path maps to. */
  lemma LeadingSlashIgnored(prefix: string, path: string)
    ensures PathToKey(prefix, "/" + path) == PathToKey(prefix, path)
  {
    assert ("/" + path)[1..] == path;
  }

  /**
   * The served form of a path (`pets/1.png`), the same with leading
   * slashes, and the stored key (`uploads/pets/1.png`) all name the same
   * object: the path under the trimmed prefix.
   */
  lemma PathFormsAgree(prefix: string, path: string)
    requires Strip(prefix, Slash) != []
    requires path == [] || path[0] != '/'
    requires !StartsWith(path, Strip(prefix, Slash) + "/")
    ensures var key := Strip(prefix, Slash) + "/" + path;
      && PathToKey(prefix, path) == key
      && PathToKey(prefix, "/" + path) == key
      && PathToKey(prefix, key) == key
  {
    var p := Strip(prefix, Slash);
    LStripNone(path);
    LeadingSlashIgnored(prefix, path);
    var key := p + "/" + path;
    assert key[..|p + "/"|] == p + "/";
    KeyUnderPrefix(prefix, key);
  }

  /** `execute(path)`: the object stored under the path's key, `None` when there is none. */
  function Execute(storage: ObjectStore, cfg: Config.Settings, path: string): (r: Option<Download>)
    reads storage
    ensures r.Some? <==> PathToKey(cfg.uploadsKeyPrefix, path) in storage.objects
    ensures r.Some? ==> r.value.content == storage.objects[PathToKey(cfg.uploadsKeyPrefix, path)].content
  {
    storage.Get(PathToKey(cfg.uploadsKeyPrefix, path))
  }
}
