/** HTTP vocabulary shared by the server router and the client API layer. */
module Http {

  /** The request methods the application uses; any other verb is `Other`. */
  datatype HttpMethod = Get | Post | Put | Delete | Other(verb: string)
}
