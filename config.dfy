/** The application settings that the modelled code reads, with their defaults. */
module Config {
  import PyStr

  /** Timestamps throughout the model are integer microseconds since the epoch. */
  const MicrosPerSecond: int := 1_000_000

  datatype Settings = Settings(
    mongodbHost: string,
    mongodbPort: int,
    mongodbUsername: string,
    mongodbPassword: string,
    mongodbDatabase: string,
    jwtSecretKey: string,
    jwtAlgorithm: string,
    accessTokenExpireSeconds: int,
    refreshTokenExpireSeconds: int,
    uploadsKeyPrefix: string,
    uploadsMaxFileSizeBytes: int,
    uploadsAllowedContentTypes: seq<string>,
    sessionExpireSeconds: int)

  /** The settings when no environment variable overrides them. */
  function Defaults(): (s: Settings)
    ensures s.accessTokenExpireSeconds == 5 * 60
    ensures s.refreshTokenExpireSeconds == 7 * 24 * 60 * 60 == s.sessionExpireSeconds
    ensures s.uploadsMaxFileSizeBytes == 5 * 1024 * 1024
    ensures s.mongodbUsername == "" && s.mongodbPassword == ""
  {
    Settings(
      mongodbHost := "localhost",
      mongodbPort := 27017,
      mongodbUsername := "",
      mongodbPassword := "",
      mongodbDatabase := "priyut_luchshiy_drug",
      jwtSecretKey := "change-me-in-production",
      jwtAlgorithm := "HS256",
      accessTokenExpireSeconds := 60 * 5,
      refreshTokenExpireSeconds := 60 * 60 * 24 * 7,
      uploadsKeyPrefix := "uploads",
      uploadsMaxFileSizeBytes := 5 * 1024 * 1024,
      uploadsAllowedContentTypes := ["image/jpeg", "image/png", "image/gif", "image/webp"],
      sessionExpireSeconds := 60 * 60 * 24 * 7)
  }

  /** `host:port/database`, the part of the URL shared by both forms. */
  function HostPart(s: Settings): string {
    s.mongodbHost + ":" + PyStr.IntToDecimal(s.mongodbPort) + "/" + s.mongodbDatabase
  }

  /** `Settings.mongodb_url`: credentials are put in only when both the user name and the password are non-empty. */
  function MongodbUrl(s: Settings): (url: string)
    ensures PyStr.StartsWith(url, "mongodb://")
  {
    if s.mongodbUsername != "" && s.mongodbPassword != "" then
      "mongodb://" + s.mongodbUsername + ":" + s.mongodbPassword + "@" + HostPart(s) + "?authSource=admin"
    else
      "mongodb://" + HostPart(s)
  }

  /**
   * The authenticated URL is the plain one with `user:password@` put after the
   * scheme and `?authSource=admin` appended; with either credential empty,
   * neither credential appears and the URL does not depend on them.
   */
  lemma MongodbUrlForms(s: Settings, user: string, password: string)
    ensures var plain := MongodbUrl(s.(mongodbUsername := "", mongodbPassword := ""));
      var url := MongodbUrl(s.(mongodbUsername := user, mongodbPassword := password));
      && plain == "mongodb://" + HostPart(s)
      && (user != "" && password != "" ==>
            url == "mongodb://" + user + ":" + password + "@" + plain[|"mongodb://"|..] + "?authSource=admin")
      && (user == "" || password == "" ==> url == plain)
  {
    var plain := MongodbUrl(s.(mongodbUsername := "", mongodbPassword := ""));
    assert plain[|"mongodb://"|..] == HostPart(s);
  }

  /** With the defaults the application connects to port 27017 of the configured host without credentials. */
  lemma DefaultMongodbUrl()
    ensures MongodbUrl(Defaults()) == "mongodb://" + HostPart(Defaults())
    ensures PyStr.IntToDecimal(Defaults().mongodbPort) == "27017"
  {
    DefaultPortText();
  }

  lemma DefaultPortText()
    ensures PyStr.IntToDecimal(27017) == "27017"
  {
    assert PyStr.DigitChar(2) == '2' && PyStr.DigitChar(7) == '7';
    assert PyStr.DigitChar(0) == '0' && PyStr.DigitChar(1) == '1';
    assert PyStr.NatToDecimal(2) == "2";
    assert PyStr.NatToDecimal(27) == "27";
    assert PyStr.NatToDecimal(270) == "270";
    assert PyStr.NatToDecimal(2701) == "2701";
  }
}
