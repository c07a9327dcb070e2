/** The settings the services read from the environment at start-up. */
module AppConfig {

  /** Discord application credentials, the front end's address and cookie name,
      and the deployment state (`production` or anything else). */
  datatype Config = Config(
    clientId: string,
    clientSecret: string,
    redirectUrl: string,
    botToken: string,
    frontendUrl: string,
    cookieName: string,
    state: string)
}
