/** The connection settings' initial values, shared by the storage object and the global configuration. */
module Settings {
  const DefaultHost: string := "localhost"
  const DefaultPort: int := 6379
  const DefaultDatabase: int := 0
  const DefaultSsl: bool := false
  const DefaultConnectionTimeout: int := 2000
  const DefaultSocketTimeout: int := 2000
  const DefaultCredentialsId: string := ""
}
