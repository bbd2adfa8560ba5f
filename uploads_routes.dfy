/**
 * The `/uploads` routes: serve an image by path, upload one (administrators
 * only) and delete one (administrators only).
 */
module UploadsRoutes {
  import opened Wrappers
  import opened Exceptions
  import opened Http
  import Config
  import opened PyStr
  import opened FileStorage
  import opened UserEntity
  import opened AuthDependencies
  import UploadImage
  import GetImage
  import DeleteImage

  const InvalidPath: string := "Invalid path"
  const ImageNotFound: string := "Image not found"
  /** The folder every upload through the route goes to. */
  const PetsSubpath: string := "pets"

  /** What a route answers: a status with a body, an error response, or an exception it does not handle. */
  datatype Reply<T> = Ok(status: int, body: T) | Error(response: ErrorResponse) | Uncaught(error: Exception)

  /** `_safe_path`: no `..` anywhere, and no `/` at the start once surrounding whitespace is stripped. */
  predicate SafePath(path: string) {
    !Contains(path, "..") && !StartsWith(StripSpace(path), "/")
  }

  /** A path with `..` anywhere in it is refused. */
  lemma DotDotUnsafe(before: string, after: string)
    ensures !SafePath(before + ".." + after)
  {
    ContainsInfix(before, "..", after);
  }

  /** A path starting with `/` is refused. */
  lemma LeadingSlashUnsafe(path: string)
    requires path != [] && path[0] == '/'
    ensures !SafePath(path)
  {
    StripSpaceFirst(path);
  }

  /** The error response of a refused or missing image. */
  function Rejection(status: int, detail: string): (e: ErrorResponse)
    ensures e.status == status && e.detail == detail && e.headers == map[]
  {
    ErrorResponse(status, detail, map[])
  }

  /**
   * `GET /uploads/{path}`: an unsafe path is refused with 400 before the
   * store is looked at; a path naming no object gets 404; otherwise the
   * object's bytes and content type.
   */
  function GetImageRoute(storage: ObjectStore, cfg: Config.Settings, path: string): (r: Reply<Download>)
    reads storage
    ensures !SafePath(path) ==> r == Error(Rejection(BadRequest, InvalidPath))
    ensures SafePath(path) && GetImage.PathToKey(cfg.uploadsKeyPrefix, path) !in storage.objects ==>
      r == Error(Rejection(NotFound, ImageNotFound))
    ensures r.Ok? <==> SafePath(path) && GetImage.PathToKey(cfg.uploadsKeyPrefix, path) in storage.objects
    ensures r.Ok? ==> r.status == OK && Some(r.body) == Fetch(storage.objects, GetImage.PathToKey(cfg.uploadsKeyPrefix, path))
  {
    if !SafePath(path) then Error(Rejection(BadRequest, InvalidPath))
    else match GetImage.Execute(storage, cfg, path)
      case None => Error(Rejection(NotFound, ImageNotFound))
      case Some(download) => Ok(OK, download)
  }

  /** `file.content_type or "application/octet-stream"`. */
  function ContentTypeOrDefault(contentType: Option<string>): (t: string)
    ensures t != []
    ensures contentType.Some? && contentType.value != [] ==> t == contentType.value
  {
    if contentType.Some? && contentType.value != [] then contentType.value else OctetStream
  }

  /**
   * `POST /uploads`: the administrator dependency decides first; then the
   * upload goes to the `pets` folder, a refused upload becomes 400 with the
   * reason, and a stored one 201 with its `image_url`.
   */
  method UploadImageRoute(storage: ObjectStore, cfg: Config.Settings, admin: Outcome<User>,
                          content: seq<byte>, contentType: Option<string>, hex: string)
    returns (r: Reply<string>)
    requires UploadImage.IsUuidHex(hex)
    modifies storage
    ensures admin.Rejected? ==> r == Error(admin.response)
    ensures admin.Raised? ==> r == Uncaught(admin.error)
    ensures !r.Ok? ==> storage.objects == old(storage.objects)
    ensures admin.Provided? ==>
      var ct := ContentTypeOrDefault(contentType);
      && (ct !in cfg.uploadsAllowedContentTypes ==>
            r == Error(Rejection(BadRequest, UploadImage.NotAllowed(cfg.uploadsAllowedContentTypes))))
      && (ct in cfg.uploadsAllowedContentTypes && |content| > cfg.uploadsMaxFileSizeBytes ==>
            r == Error(Rejection(BadRequest, UploadImage.TooLarge(cfg.uploadsMaxFileSizeBytes))))
      && (ct in cfg.uploadsAllowedContentTypes && |content| <= cfg.uploadsMaxFileSizeBytes ==>
            var key := UploadImage.BuildKey(cfg.uploadsKeyPrefix, PetsSubpath, ct, hex);
            r == Ok(Created, key) && storage.objects == old(storage.objects)[key := StoredObject(content, ct)])
  {
    match admin {
      case Rejected(response) =>
        return Error(response);
      case Raised(error) =>
        return Uncaught(error);
      case Provided(_) =>
    }
    var ct := ContentTypeOrDefault(contentType);
    var res := UploadImage.Execute(storage, cfg, content, ct, PetsSubpath, hex);
    if res.Failure? {
      return Error(Rejection(BadRequest, res.error.message));
    }
    r := Ok(Created, res.value);
  }

  /**
   * `DELETE /uploads/{path}`: the administrator dependency decides first;
   * then an unsafe path is refused with 400, a path naming no object gets
   * 404, and a removed object 204.
   */
  method DeleteImageRoute(storage: ObjectStore, cfg: Config.Settings, admin: Outcome<User>, path: string)
    returns (r: Reply<()>)
    modifies storage
    ensures admin.Rejected? ==> r == Error(admin.response)
    ensures admin.Raised? ==> r == Uncaught(admin.error)
    ensures !r.Ok? ==> storage.objects == old(storage.objects)
    ensures admin.Provided? ==>
      var key := GetImage.PathToKey(cfg.uploadsKeyPrefix, path);
      && (!SafePath(path) ==> r == Error(Rejection(BadRequest, InvalidPath)))
      && (SafePath(path) && key !in old(storage.objects) ==> r == Error(Rejection(NotFound, ImageNotFound)))
      && (SafePath(path) && key in old(storage.objects) ==> r == Ok(NoContent, ()) && storage.objects == old(storage.objects) - {key})
  {
    match admin {
      case Rejected(response) =>
        return Error(response);
      case Raised(error) =>
        return Uncaught(error);
      case Provided(_) =>
    }
    if !SafePath(path) {
      return Error(Rejection(BadRequest, InvalidPath));
    }
    var deleted := DeleteImage.Execute(storage, cfg, path);
    if !deleted {
      return Error(Rejection(NotFound, ImageNotFound));
    }
    r := Ok(NoContent, ());
  }

  /**
   * A key joined from a prefix and a subpath with no doubled dot, not
   * starting with whitespace, is a safe path.
   */
  lemma JoinedKeySafe(p: string, q: string, contentType: string, hex: string)
    requires UploadImage.IsUuidHex(hex)
    requires p != [] && p[0] !in Whitespace && p[0] != '/' && p[|p| - 1] != '/' && NoPair(p, '.')
    requires q != [] && q[0] != '/' && q[|q| - 1] != '/' && NoPair(q, '.')
    ensures SafePath(p + "/" + q + "/" + hex + "." + UploadImage.Extension(contentType))
  {
    var key := p + "/" + q + "/" + hex + "." + UploadImage.Extension(contentType);
    UploadImage.KeyHasNoDots(p, q, contentType, hex);
    assert key[0] == p[0];
    StripSpaceFirst(key);
    assert StripSpace(key)[..1] != "/";
  }

  /**
   * The `image_url` of an upload is a safe path that maps to itself, as
   * long as the trimmed prefix and the subpath are non-empty, have no
   * doubled slash or dot, and the prefix does not begin with whitespace.
   */
  lemma UploadedKeySafe(prefix: string, subpath: string, contentType: string, hex: string)
    requires UploadImage.IsUuidHex(hex)
    requires var p := Strip(prefix, Slash);
      p != [] && p[0] !in Whitespace && NoPair(p, '/') && NoPair(p, '.')
    requires var q := Strip(subpath, Slash); q != [] && NoPair(q, '/') && NoPair(q, '.')
    ensures var key := UploadImage.BuildKey(prefix, subpath, contentType, hex);
      SafePath(key) && GetImage.PathToKey(prefix, key) == key
  {
    var key := UploadImage.BuildKey(prefix, subpath, contentType, hex);
    UploadImage.KeyShape(prefix, subpath, contentType, hex);
    JoinedKeySafe(Strip(prefix, Slash), Strip(subpath, Slash), contentType, hex);
    GetImage.KeyUnderPrefix(prefix, key);
  }

  /** So the GET route serves an uploaded image back under the `image_url` it was given. */
  lemma UploadedImageServed(storage: ObjectStore, cfg: Config.Settings, subpath: string, contentType: string, hex: string)
    requires UploadImage.IsUuidHex(hex)
    requires var p := Strip(cfg.uploadsKeyPrefix, Slash);
      p != [] && p[0] !in Whitespace && NoPair(p, '/') && NoPair(p, '.')
    requires var q := Strip(subpath, Slash); q != [] && NoPair(q, '/') && NoPair(q, '.')
    requires UploadImage.BuildKey(cfg.uploadsKeyPrefix, subpath, contentType, hex) in storage.objects
    ensures var key := UploadImage.BuildKey(cfg.uploadsKeyPrefix, subpath, contentType, hex);
      GetImageRoute(storage, cfg, key) == Ok(OK, Fetch(storage.objects, key).value)
  {
    UploadedKeySafe(cfg.uploadsKeyPrefix, subpath, contentType, hex);
  }

  /**
   * With a prefix that trims to nothing, the `image_url` an upload returns
   * begins with `/`, so the GET route refuses it as unsafe.
   */
  lemma EmptyPrefixUploadNotServed(storage: ObjectStore, cfg: Config.Settings, subpath: string, contentType: string, hex: string)
    requires Strip(cfg.uploadsKeyPrefix, Slash) == []
    ensures GetImageRoute(storage, cfg, UploadImage.BuildKey(cfg.uploadsKeyPrefix, subpath, contentType, hex))
      == Error(Rejection(BadRequest, InvalidPath))
  {
    UploadImage.EmptyPrefixLeadingSlash(cfg.uploadsKeyPrefix, subpath, contentType, hex);
    LeadingSlashUnsafe(UploadImage.BuildKey(cfg.uploadsKeyPrefix, subpath, contentType, hex));
  }
}
