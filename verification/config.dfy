/**
  The parts of Cassandra's `Config` and `EncryptionOptions` that the loader
  reads. Their defaults live in classes outside this model, so a default
  record is always supplied from outside.
*/
module CassandraConfig {
  import opened Java

  /**
    TLS settings. The client and server variants share these fields; the
    server-only fields are passed through untouched and are not modelled.
  */
  datatype EncryptionOptions = EncryptionOptions(
    keystore: string,
    keystorePassword: string,
    truststore: string,
    truststorePassword: string,
    cipherSuites: seq<string>,
    protocol: string,
    algorithm: string,
    storeType: string,
    requireClientAuth: bool)

  /** The configuration-file fields the loader consumes. */
  datatype Config = Config(
    storagePort: Int32,
    sslStoragePort: Int32,
    streamThroughputOutboundMegabitsPerSec: Int32,
    clientEncryptionOptions: EncryptionOptions,
    serverEncryptionOptions: EncryptionOptions)
}
