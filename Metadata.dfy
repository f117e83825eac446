/** The plugin's identity and the record answered to `GET /plugin/metadata`. */
module Metadata {
  import opened Services

  /** The class attributes a plugin overrides: `name`, `version`, `description`, `author`. */
  datatype Identity = Identity(name: string, version: string, description: string, author: string)

  /** The values `RemotePluginBase` declares when a plugin overrides nothing. */
  const DefaultIdentity: Identity := Identity(PlaceholderName, "0.0.0", "", "")

  /** The reserved placeholder name. */
  const PlaceholderName: string := "unknown_plugin"

  /** `type` and `mode` are the same for every plugin of this contract. */
  const PluginType: string := "system"
  const PluginMode: string := "remote"

  /** The keys of the discovery answer, `type` written `kind`. */
  datatype PluginMetadata = PluginMetadata(
    name: string, kind: string, mode: string, version: string,
    description: string, author: string, services: seq<ServiceEntry>)
}
