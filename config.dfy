/** `SentryConfig`: the settings a manager is built from. */
module Config {

  datatype SentryConfig = SentryConfig(
    dsn: string,
    environment: string,
    release: string,
    logLevels: seq<string>)  // names of the levels reported to Sentry
}
