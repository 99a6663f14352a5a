/** The backend origin: the `VITE_API_URL` build variable, or a local default,
    without one trailing slash. */
module Constants {
  import opened Js
  import opened Text

  const DefaultApiUrl := "http://localhost:8000"

  /** `(env || DEFAULT).replace(/\/$/, "")`: an unset or empty variable selects the
      default, and a single final `/` is dropped. */
  function ApiUrl(env: Option<string>): (url: string)
    ensures env.None? || env.value == "" ==> url == DefaultApiUrl
    ensures env.Some? && env.value != "" && env.value[|env.value| - 1] == '/' ==> url + "/" == env.value
    ensures env.Some? && env.value != "" && env.value[|env.value| - 1] != '/' ==> url == env.value
  {
    var raw := if env.None? || env.value == "" then DefaultApiUrl else env.value;
    if raw != "" && raw[|raw| - 1] == '/' then raw[..|raw| - 1] else raw
  }

  /** Only one character is stripped: a value ending in two slashes keeps one. */
  lemma DoubleSlashKeepsOne(base: string)
    ensures ApiUrl(Some(base + "//")) == base + "/"
  {
    var v := base + "//";
    assert v[|v| - 1] == '/';
    assert ApiUrl(Some(v)) + "/" == v;
  }

  /** The normalised origin differs from the configured value by at most the one slash. */
  lemma ApiUrlIsPrefix(env: string)
    requires env != ""
    ensures StartsWith(env, ApiUrl(Some(env)))
    ensures |env| - 1 <= |ApiUrl(Some(env))| <= |env|
  {
  }
}
