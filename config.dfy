/**
  The configuration each uploader reads from the environment in `__init__`,
  after loading `.env`. `SpacesConfig` is `DOSpacesUploader` (do_uploader.py),
  `S3Config` is `S3Uploader` (uploader.py). A configuration never changes once
  built.
*/
module Config {
  import opened Wrappers
  import opened EnvFile

  datatype Config =
    | SpacesConfig(accessKey: string, secretKey: string, endpoint: string, region: string,
                   bucket: string, filesUrl: string, prefix: string)
    | S3Config(accessKey: string, secretKey: string, region: string, bucket: string,
               prefix: string)

  /** The `ValueError` raised when a required variable is unset or empty. */
  datatype ConfigError = MissingRequiredVariables(names: seq<string>)

  const SpacesRequired: seq<string> :=
    ["DO_SPACES_KEY", "DO_SPACES_SECRET", "DO_SPACES_ENDPOINT", "DO_SPACES_BUCKET"]
  const S3Required: seq<string> := ["AWS_ACCESS_KEY_ID", "AWS_SECRET_ACCESS_KEY", "S3_BUCKET_NAME"]

  /** `os.getenv(name, default)`: an empty value is returned as it is. */
  function GetEnv(env: Environ, name: string, default: string): string {
    if name in env then env[name] else default
  }

  /** `DOSpacesUploader.__init__` after `.env` is loaded: it fails unless key,
      secret, endpoint and bucket are all set and non-empty; the region defaults
      to "nyc3", the CDN URL and the prefix to "". */
  function SpacesFromEnv(env: Environ): (r: Result<Config, ConfigError>)
    ensures r.Ok? <==>
      IsSet(env, "DO_SPACES_KEY") && IsSet(env, "DO_SPACES_SECRET")
      && IsSet(env, "DO_SPACES_ENDPOINT") && IsSet(env, "DO_SPACES_BUCKET")
    ensures r.Err? ==> r.error == MissingRequiredVariables(SpacesRequired)
    ensures r.Ok? ==> (
      && r.value.SpacesConfig?
      && r.value.accessKey == env["DO_SPACES_KEY"] && r.value.secretKey == env["DO_SPACES_SECRET"]
      && r.value.endpoint == env["DO_SPACES_ENDPOINT"] && r.value.bucket == env["DO_SPACES_BUCKET"]
      && r.value.region == (if "DO_SPACES_REGION" in env then env["DO_SPACES_REGION"] else "nyc3")
      && r.value.filesUrl == (if "DO_SPACES_FILES_URL" in env then env["DO_SPACES_FILES_URL"] else "")
      && r.value.prefix == (if "DO_SPACES_PREFIX" in env then env["DO_SPACES_PREFIX"] else ""))
  {
    var key := GetEnv(env, "DO_SPACES_KEY", "");
    var secret := GetEnv(env, "DO_SPACES_SECRET", "");
    var endpoint := GetEnv(env, "DO_SPACES_ENDPOINT", "");
    var bucket := GetEnv(env, "DO_SPACES_BUCKET", "");
    if key == "" || secret == "" || endpoint == "" || bucket == "" then
      Err(MissingRequiredVariables(SpacesRequired))
    else
      Ok(SpacesConfig(key, secret, endpoint, GetEnv(env, "DO_SPACES_REGION", "nyc3"), bucket,
                      GetEnv(env, "DO_SPACES_FILES_URL", ""), GetEnv(env, "DO_SPACES_PREFIX", "")))
  }

  /** `S3Uploader.__init__` after `.env` is loaded: it fails unless key, secret
      and bucket are all set and non-empty; the region defaults to "us-east-1"
      and the prefix to "". */
  function S3FromEnv(env: Environ): (r: Result<Config, ConfigError>)
    ensures r.Ok? <==>
      IsSet(env, "AWS_ACCESS_KEY_ID") && IsSet(env, "AWS_SECRET_ACCESS_KEY") && IsSet(env, "S3_BUCKET_NAME")
    ensures r.Err? ==> r.error == MissingRequiredVariables(S3Required)
    ensures r.Ok? ==> (
      && r.value.S3Config?
      && r.value.accessKey == env["AWS_ACCESS_KEY_ID"] && r.value.secretKey == env["AWS_SECRET_ACCESS_KEY"]
      && r.value.bucket == env["S3_BUCKET_NAME"]
      && r.value.region == (if "AWS_REGION" in env then env["AWS_REGION"] else "us-east-1")
      && r.value.prefix == (if "S3_PREFIX" in env then env["S3_PREFIX"] else ""))
  {
    var key := GetEnv(env, "AWS_ACCESS_KEY_ID", "");
    var secret := GetEnv(env, "AWS_SECRET_ACCESS_KEY", "");
    var bucket := GetEnv(env, "S3_BUCKET_NAME", "");
    if key == "" || secret == "" || bucket == "" then
      Err(MissingRequiredVariables(S3Required))
    else
      Ok(S3Config(key, secret, GetEnv(env, "AWS_REGION", "us-east-1"), bucket,
                  GetEnv(env, "S3_PREFIX", "")))
  }

  /** `DOSpacesUploader()`: loads `.env` into the environment, then validates. */
  method NewSpacesUploader(env: Environment, dotenv: Option<seq<string>>) returns (r: Result<Config, ConfigError>)
    modifies env
    ensures env.vars == LoadDotEnv(old(env.vars), dotenv)
    ensures r == SpacesFromEnv(env.vars)
  {
    env.LoadEnvFile(dotenv);
    r := SpacesFromEnv(env.vars);
  }

  /** `S3Uploader()`: loads `.env` into the environment, then validates. */
  method NewS3Uploader(env: Environment, dotenv: Option<seq<string>>) returns (r: Result<Config, ConfigError>)
    modifies env
    ensures env.vars == LoadDotEnv(old(env.vars), dotenv)
    ensures r == S3FromEnv(env.vars)
  {
    env.LoadEnvFile(dotenv);
    r := S3FromEnv(env.vars);
  }
}
