/** The connection settings shared by every bulk batch and scroll. */
module Settings {

  /** `Config`: the endpoint URL, the HTTP headers, and the index and
      document type every request targets. Never changed after it is built. */
  datatype Config = Config(
    httpEndpoint: string,
    httpHeaders: map<string, string>,
    index: string,
    doctype: string)
}
