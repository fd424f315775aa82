/** The process environment, read through `os.Getenv`: an unset variable reads as "". */
module Environment {

  type Env = map<string, string>

  function Getenv(env: Env, key: string): string
  {
    if key in env then env[key] else ""
  }
}
