/** `UploadImageUseCase`: check an image, store it under a fresh key, and return the key as its `image_url`. */
module UploadImage {
  import opened Wrappers
  import opened Exceptions
  import Config
  import ObjectIds
  import opened PyStr
  import opened FileStorage

  /** The file extension for each accepted image type. */
  const ExtByContentType: map<string, string> :=
    map["image/jpeg" := "jpg", "image/png" := "png", "image/gif" := "gif", "image/webp" := "webp"]

  /** `uuid.uuid4().hex`: 32 lower-case hexadecimal digits. */
  predicate IsUuidHex(hex: string) {
    |hex| == 32 && forall i :: 0 <= i < |hex| ==> ObjectIds.IsLowerHex(hex[i])
  }

  /** `EXT_BY_CONTENT_TYPE.get(content_type, "bin")`. */
  function Extension(contentType: string): (ext: string)
    ensures contentType in ExtByContentType ==> ext == ExtByContentType[contentType]
    ensures contentType !in ExtByContentType ==> ext == "bin"
    ensures ext in {"jpg", "png", "gif", "webp", "bin"}
  {
    if contentType in ExtByContentType then ExtByContentType[contentType] else "bin"
  }

  /**
   * `_build_key`: the prefix and the subpath with their slashes trimmed,
   * the random name and the extension, joined by `/`, and then every `//`
   * replaced by `/`.
   */
  function BuildKey(prefix: string, subpath: string, contentType: string, hex: string): string {
    ReplaceAll(Strip(prefix, Slash) + "/" + Strip(subpath, Slash) + "/" + hex + "." + Extension(contentType), "//", "/")
  }

  function NotAllowed(allowed: seq<string>): string {
    "Content type not allowed. Allowed: " + ListRepr(allowed)
  }

  function TooLarge(max: int): string {
    "File too large. Max size: " + IntToDecimal(max) + " bytes"
  }

  /** The extension has no slash and no dot. */
  lemma ExtensionPlain(contentType: string)
    ensures var ext := Extension(contentType);
      ext != [] && forall k :: 0 <= k < |ext| ==> ext[k] != '/' && ext[k] != '.'
  {
    var ext := Extension(contentType);
    assert ext == "jpg" || ext == "png" || ext == "gif" || ext == "webp" || ext == "bin";
  }

  /** The name part of a key: the random hex digits, a dot and an extension; it has no slash and no two dots. */
  lemma NameHasNoPairs(hex: string, contentType: string, c: char)
    requires IsUuidHex(hex) && (c == '/' || c == '.')
    ensures var name := hex + "." + Extension(contentType);
      name != [] && name[0] != '/' && NoPair(name, c)
  {
    var ext := Extension(contentType);
    ExtensionPlain(contentType);
    var name := hex + "." + ext;
    assert forall k :: 0 <= k < |hex| ==> hex[k] != '/' && hex[k] != '.';
    assert NoPair(hex, c);
    assert NoPair("." + ext, c) by {
      var t := "." + ext;
      forall k | 0 <= k < |t| - 1 ensures !(t[k] == c && t[k + 1] == c) {
        assert t[k + 1] == ext[k];
      }
    }
    NoPairJoin(hex, "." + ext, c);
    assert hex + ("." + ext) == name;
  }

  /** `p/q/name` has no doubled `c` when none of its parts has one and no slash sits next to a separator. */
  lemma JoinedNoPair(p: string, q: string, name: string, c: char)
    requires p != [] && q != [] && name != []
    requires p[|p| - 1] != '/' && q[0] != '/' && q[|q| - 1] != '/' && name[0] != '/'
    requires NoPair(p, c) && NoPair(q, c) && NoPair(name, c)
    ensures NoPair(p + "/" + q + "/" + name, c)
  {
    assert NoPair("/", c);
    NoPairJoin(p, "/", c);
    NoPairJoin(p + "/", q, c);
    NoPairJoin(p + "/" + q, "/", c);
    NoPairJoin(p + "/" + q + "/", name, c);
  }

  /** `p/q/<hex>.<ext>` with no `//` in `p` or `q` and no slash at their ends has nothing to replace. */
  lemma JoinedKeyUnchanged(p: string, q: string, contentType: string, hex: string)
    requires IsUuidHex(hex)
    requires p != [] && p[|p| - 1] != '/' && NoPair(p, '/')
    requires q != [] && q[0] != '/' && q[|q| - 1] != '/' && NoPair(q, '/')
    ensures var key := p + "/" + q + "/" + hex + "." + Extension(contentType);
      ReplaceAll(key, "//", "/") == key && StartsWith(key, p + "/")
  {
    var name := hex + "." + Extension(contentType);
    NameHasNoPairs(hex, contentType, '/');
    JoinedNoPair(p, q, name, '/');
    var key := p + "/" + q + "/" + name;
    assert key == p + "/" + q + "/" + hex + "." + Extension(contentType);
    NoPairNotContains(key, '/');
    assert ['/', '/'] == "//";
    ReplaceAbsent(key, "//", "/");
    assert key[..|p + "/"|] == p + "/";
  }

  /**
   * When the trimmed prefix and subpath are non-empty and have no `//` of
   * their own, nothing is replaced: the key is exactly
   * `prefix/subpath/<hex>.<ext>` and starts with `prefix/`.
   */
  lemma KeyShape(prefix: string, subpath: string, contentType: string, hex: string)
    requires IsUuidHex(hex)
    requires Strip(prefix, Slash) != [] && NoPair(Strip(prefix, Slash), '/')
    requires Strip(subpath, Slash) != [] && NoPair(Strip(subpath, Slash), '/')
    ensures var key := Strip(prefix, Slash) + "/" + Strip(subpath, Slash) + "/" + hex + "." + Extension(contentType);
      && BuildKey(prefix, subpath, contentType, hex) == key
      && StartsWith(key, Strip(prefix, Slash) + "/")
  {
    JoinedKeyUnchanged(Strip(prefix, Slash), Strip(subpath, Slash), contentType, hex);
  }

  /** Such a key has no `..` either when neither the prefix nor the subpath has one. */
  lemma KeyHasNoDots(p: string, q: string, contentType: string, hex: string)
    requires IsUuidHex(hex)
    requires p != [] && p[|p| - 1] != '/' && NoPair(p, '.')
    requires q != [] && q[0] != '/' && q[|q| - 1] != '/' && NoPair(q, '.')
    ensures !Contains(p + "/" + q + "/" + hex + "." + Extension(contentType), "..")
  {
    var name := hex + "." + Extension(contentType);
    NameHasNoPairs(hex, contentType, '.');
    JoinedNoPair(p, q, name, '.');
    var key := p + "/" + q + "/" + name;
    assert key == p + "/" + q + "/" + hex + "." + Extension(contentType);
    NoPairNotContains(key, '.');
    assert ['.', '.'] == "..";
  }

  /** A text without slashes is its own trimmed form. */
  lemma StripNoSlash(s: string)
    requires forall k :: 0 <= k < |s| ==> s[k] != '/'
    ensures Strip(s, Slash) == s && NoPair(s, '/')
  {
    assert LStrip(s, Slash) == s;
    assert RStrip(s, Slash) == s;
  }

  /** A prefix and a subpath without any slash are joined as they are. */
  lemma PlainPartsKey(prefix: string, subpath: string, contentType: string, hex: string)
    requires IsUuidHex(hex) && prefix != [] && subpath != []
    requires forall k :: 0 <= k < |prefix| ==> prefix[k] != '/'
    requires forall k :: 0 <= k < |subpath| ==> subpath[k] != '/'
    ensures BuildKey(prefix, subpath, contentType, hex) == prefix + "/" + subpath + "/" + hex + "." + Extension(contentType)
  {
    StripNoSlash(prefix);
    StripNoSlash(subpath);
    KeyShape(prefix, subpath, contentType, hex);
  }

  /**
   * An empty prefix (or one of slashes only) leaves a key that begins with
   * `/`, whatever the rest.
   */
  lemma EmptyPrefixLeadingSlash(prefix: string, subpath: string, contentType: string, hex: string)
    requires Strip(prefix, Slash) == []
    ensures var key := BuildKey(prefix, subpath, contentType, hex); |key| > 0 && key[0] == '/'
  {
    var s := Strip(prefix, Slash) + "/" + Strip(subpath, Slash) + "/" + hex + "." + Extension(contentType);
    assert s[0] == '/';
    ReplaceSlashesLeading(s);
  }

  /**
   * `execute(content, content_type, subpath)`: a content type outside the
   * allowed list is refused first, then content longer than the maximum
   * (exactly the maximum is accepted); only then is the object uploaded
   * under a fresh key, and the store's answer returned.
   */
  method Execute(storage: ObjectStore, cfg: Config.Settings, content: seq<byte>, contentType: string, subpath: string, hex: string)
    returns (r: Result<string, Exception>)
    requires IsUuidHex(hex)
    modifies storage
    ensures contentType !in cfg.uploadsAllowedContentTypes ==>
      r == Failure(ValueError(NotAllowed(cfg.uploadsAllowedContentTypes)))
    ensures contentType in cfg.uploadsAllowedContentTypes && |content| > cfg.uploadsMaxFileSizeBytes ==>
      r == Failure(ValueError(TooLarge(cfg.uploadsMaxFileSizeBytes)))
    ensures r.Failure? ==> r.error.ValueError? && storage.objects == old(storage.objects)
    ensures r.Success? <==> contentType in cfg.uploadsAllowedContentTypes && |content| <= cfg.uploadsMaxFileSizeBytes
    ensures r.Success? ==>
      var key := BuildKey(cfg.uploadsKeyPrefix, subpath, contentType, hex);
      r.value == key && storage.objects == old(storage.objects)[key := StoredObject(content, contentType)]
  {
    if contentType !in cfg.uploadsAllowedContentTypes {
      return Failure(ValueError(NotAllowed(cfg.uploadsAllowedContentTypes)));
    }
    if |content| > cfg.uploadsMaxFileSizeBytes {
      return Failure(ValueError(TooLarge(cfg.uploadsMaxFileSizeBytes)));
    }
    var key := BuildKey(cfg.uploadsKeyPrefix, subpath, contentType, hex);
    var stored := storage.Upload(content, key, contentType);
    r := Success(stored);
  }
}
