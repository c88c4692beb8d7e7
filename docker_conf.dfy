/** Registry options built from the Docker credentials configuration
    (pkg/types/docker_conf.go). Loading `DockerConfig` from the process
    environment is a collaborator: its outcome is an input here. */
module DockerConf {
  import opened Wrappers
  import opened Strings

  /** `DockerConfig` as loaded from the environment. `userName` and `password` hold
      comma-separated lists; `GetDockerOption` refuses lists of different lengths. */
  datatype DockerConfig = DockerConfig(userName: string, password: string, registryToken: string, nonSSL: bool)

  /** `types.Credential`. */
  datatype Credential = Credential(userName: string, password: string)

  /** `types.DockerOption`. `userName` and `password` mirror the first credential. */
  datatype DockerOption = DockerOption(
    userName: string,
    password: string,
    credentials: seq<Credential>,
    registryToken: string,
    insecureSkipTLSVerify: bool,
    nonSSL: bool,
    platform: string,
    forcePlatform: bool)

  const Separator := ','
  const EnvParseError := "unable to parse environment variables: "
  const LengthMismatch := "the length of usernames and passwords must match"

  /** The credentials paired position by position, each half trimmed. */
  function Credentials(users: seq<string>, passwords: seq<string>): (cs: seq<Credential>)
    requires |users| == |passwords|
    ensures |cs| == |users|
    ensures forall i :: 0 <= i < |cs| ==> cs[i] == Credential(TrimSpace(users[i]), TrimSpace(passwords[i]))
  {
    if users == [] then []
    else [Credential(TrimSpace(users[0]), TrimSpace(passwords[0]))] + Credentials(users[1..], passwords[1..])
  }

  /** What `GetDockerOption` returns, given what loading the environment gave. */
  function Options(env: Result<DockerConfig>, insecureTlsSkip: bool, platform: string, forcePlatform: bool)
    : (r: Result<DockerOption>)
    ensures env.Err? ==> r.Err?
    ensures r.Ok? ==> && env.Ok?
                      && |r.value.credentials| == Count(env.value.userName, Separator) + 1
                      && r.value.userName == r.value.credentials[0].userName
                      && r.value.password == r.value.credentials[0].password
  {
    match env
    case Err(e) => Err(Error(EnvParseError + e.message))
    case Ok(cfg) =>
      var users := Split(cfg.userName, Separator);
      var passwords := Split(cfg.password, Separator);
      if |users| != |passwords| then Err(Error(LengthMismatch))
      else
        var credentials := Credentials(users, passwords);
        Ok(DockerOption(credentials[0].userName, credentials[0].password, credentials,
                        cfg.registryToken, insecureTlsSkip, cfg.nonSSL, platform, forcePlatform))
  }

  /** `GetDockerOption`: split both lists on commas, reject lists of different
      lengths, pair the trimmed entries in order, mirror the first pair into the
      legacy fields and pass the token and the flags through. */
  method GetDockerOption(env: Result<DockerConfig>, insecureTlsSkip: bool, platform: string, forcePlatform: bool)
    returns (result: Result<DockerOption>)
    ensures result == Options(env, insecureTlsSkip, platform, forcePlatform)
  {
    if env.Err? {
      return Err(Error(EnvParseError + env.error.message));
    }
    var cfg := env.value;
    var users := Split(cfg.userName, Separator);
    var passwords := Split(cfg.password, Separator);
    if |users| != |passwords| {
      return Err(Error(LengthMismatch));
    }
    var credentials := PairCredentials(users, passwords);
    result := Ok(DockerOption(credentials[0].userName, credentials[0].password, credentials,
                              cfg.registryToken, insecureTlsSkip, cfg.nonSSL, platform, forcePlatform));
  }

  /** The loop of `GetDockerOption`: appends the trimmed pair of each position in turn. */
  method PairCredentials(users: seq<string>, passwords: seq<string>) returns (credentials: seq<Credential>)
    requires |users| == |passwords|
    ensures credentials == Credentials(users, passwords)
  {
    credentials := [];
    for index := 0 to |users|
      invariant |credentials| == index
      invariant forall k :: 0 <= k < index ==>
                  credentials[k] == Credential(TrimSpace(users[k]), TrimSpace(passwords[k]))
    {
      credentials := credentials + [Credential(TrimSpace(users[index]), TrimSpace(passwords[index]))];
    }
  }

  /** A failed environment load is reported, wrapped, and nothing else happens. */
  lemma EnvErrorWrapped(e: Error, insecureTlsSkip: bool, platform: string, forcePlatform: bool)
    ensures Options(Err(e), insecureTlsSkip, platform, forcePlatform)
            == Err(Error(EnvParseError + e.message))
  {
  }

  /** The options are refused exactly when the two lists hold different numbers of
      commas, and then with the length-mismatch error. */
  lemma RejectedIffFieldCountsDiffer(cfg: DockerConfig, insecureTlsSkip: bool, platform: string, forcePlatform: bool)
    ensures var r := Options(Ok(cfg), insecureTlsSkip, platform, forcePlatform);
            (r.Err? <==> Count(cfg.userName, Separator) != Count(cfg.password, Separator))
            && (r.Err? ==> r.error == Error(LengthMismatch))
  {
  }

  /** On success there is one credential per comma-separated user field, so at
      least one, and credential i pairs the trimmed i-th user and password fields. */
  lemma CredentialsPairFields(cfg: DockerConfig, insecureTlsSkip: bool, platform: string, forcePlatform: bool)
    requires Options(Ok(cfg), insecureTlsSkip, platform, forcePlatform).Ok?
    ensures var o := Options(Ok(cfg), insecureTlsSkip, platform, forcePlatform).value;
            var users := Split(cfg.userName, Separator);
            var passwords := Split(cfg.password, Separator);
            && |o.credentials| == |users| == |passwords| == Count(cfg.userName, Separator) + 1
            && forall i :: 0 <= i < |o.credentials| ==>
                 o.credentials[i] == Credential(TrimSpace(users[i]), TrimSpace(passwords[i]))
  {
  }

  /** On success the legacy fields are the first credential, and the token and the
      flags are passed through unchanged. */
  lemma LegacyFieldsAndFlags(cfg: DockerConfig, insecureTlsSkip: bool, platform: string, forcePlatform: bool)
    requires Options(Ok(cfg), insecureTlsSkip, platform, forcePlatform).Ok?
    ensures var o := Options(Ok(cfg), insecureTlsSkip, platform, forcePlatform).value;
            && |o.credentials| >= 1
            && o.userName == o.credentials[0].userName && o.password == o.credentials[0].password
            && o.registryToken == cfg.registryToken && o.nonSSL == cfg.nonSSL
            && o.insecureSkipTLSVerify == insecureTlsSkip && o.platform == platform
            && o.forcePlatform == forcePlatform
  {
  }

  /** Empty user and password strings give one empty credential, not none. */
  lemma EmptyConfigOneEmptyCredential(cfg: DockerConfig, insecureTlsSkip: bool, platform: string, forcePlatform: bool)
    requires cfg.userName == "" && cfg.password == ""
    ensures var r := Options(Ok(cfg), insecureTlsSkip, platform, forcePlatform);
            r.Ok? && r.value.credentials == [Credential("", "")]
            && r.value.userName == "" && r.value.password == ""
  {
  }

  /** Fields are split before they are trimmed: a trailing comma on both lists adds
      one empty credential after the others instead of being dropped. */
  lemma TrailingCommaAddsEmptyCredential(cfg: DockerConfig, insecureTlsSkip: bool, platform: string, forcePlatform: bool)
    ensures var r := Options(Ok(cfg), insecureTlsSkip, platform, forcePlatform);
            var cfg' := cfg.(userName := cfg.userName + [Separator], password := cfg.password + [Separator]);
            var r' := Options(Ok(cfg'), insecureTlsSkip, platform, forcePlatform);
            (r'.Ok? <==> r.Ok?)
            && (r.Ok? ==> r'.value.credentials == r.value.credentials + [Credential("", "")])
  {
    var cfg' := cfg.(userName := cfg.userName + [Separator], password := cfg.password + [Separator]);
    SplitTrailingSeparator(cfg.userName, Separator);
    SplitTrailingSeparator(cfg.password, Separator);
    var users, passwords := Split(cfg.userName, Separator), Split(cfg.password, Separator);
    if |users| == |passwords| {
      assert TrimSpace("") == "";
      assert Credentials(users + [""], passwords + [""]) == Credentials(users, passwords) + [Credential("", "")];
    }
  }

  /** On success the credentials are the trimmed pairs of the split fields. */
  lemma AcceptedCredentials(cfg: DockerConfig, insecureTlsSkip: bool, platform: string, forcePlatform: bool,
                            users: seq<string>, passwords: seq<string>)
    requires Split(cfg.userName, Separator) == users && Split(cfg.password, Separator) == passwords
    requires |users| == |passwords|
    ensures var r := Options(Ok(cfg), insecureTlsSkip, platform, forcePlatform);
            r.Ok? && r.value.credentials == Credentials(users, passwords)
  {
  }

  /** Whitespace around the fields is trimmed: "a, b" and "x,y" give (a, x) and (b, y). */
  lemma TrimmedPairsExample(cfg: DockerConfig, insecureTlsSkip: bool, platform: string, forcePlatform: bool)
    requires cfg.userName == "a, b" && cfg.password == "x,y"
    ensures var r := Options(Ok(cfg), insecureTlsSkip, platform, forcePlatform);
            r.Ok? && r.value.credentials == [Credential("a", "x"), Credential("b", "y")]
  {
    var users, passwords := ["a", " b"], ["x", "y"];
    assert Split(cfg.userName, Separator) == users by {
      assert Join(users, Separator) == cfg.userName;
      SplitJoin(users, Separator);
    }
    assert Split(cfg.password, Separator) == passwords by {
      assert Join(passwords, Separator) == cfg.password;
      SplitJoin(passwords, Separator);
    }
    AcceptedCredentials(cfg, insecureTlsSkip, platform, forcePlatform, users, passwords);
    ExampleFieldsTrimmed();
  }

  /** The pairing step of the example above, on the split fields. */
  lemma ExampleFieldsTrimmed()
    ensures Credentials(["a", " b"], ["x", "y"]) == [Credential("a", "x"), Credential("b", "y")]
  {
    assert TrimSpace(" b") == "b" && TrimSpace("a") == "a";
    assert TrimSpace("x") == "x" && TrimSpace("y") == "y";
  }

  /** Two users and one password are refused. */
  lemma MismatchExample(cfg: DockerConfig, insecureTlsSkip: bool, platform: string, forcePlatform: bool)
    requires cfg.userName == "a,b" && cfg.password == "x"
    ensures Options(Ok(cfg), insecureTlsSkip, platform, forcePlatform) == Err(Error(LengthMismatch))
  {
  }
}
