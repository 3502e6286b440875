/** The dictionaries that flow between the server's stages. */
module Records {
  /** A result's `metadata` (or Qdrant `payload`) dictionary of string values. */
  type Metadata = map<string, string>

  /** `metadata.get(key, '')`: a missing key reads as the empty, falsy string. */
  function Get(m: Metadata, key: string): string {
    if key in m then m[key] else ""
  }
}
