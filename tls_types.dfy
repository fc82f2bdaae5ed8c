/** Values shared by the TLS settings model: the 16-bit protocol version,
    results and errors, the opaque certificate material, and the foreign
    calls (file system, x509 parsing, key-pair loading, the client-CA
    watcher) that the settings code consults but does not define. */
module TlsTypes {
  import opened Options

  /** Go's uint16, the type of crypto/tls version constants. */
  newtype uint16 = x: int | 0 <= x < 0x1_0000

  /** A Go `(T, error)` pair where exactly one side is meaningful. */
  datatype Result<+T> = Ok(value: T) | Err(error: Error) {

    predicate IsFailure() {
      Err?
    }

    function PropagateFailure<U>(): Result<U>
      requires Err?
    {
      Err(error)
    }

    function Extract(): T
      requires Ok?
    {
      value
    }
  }

  /** The message prefix added when an error is wrapped with `%w`. */
  datatype Context =
    | LoadCAPool      // the CA pool of the settings could not be built
    | LoadCertAndKey  // the certificate/key pair could not be loaded
    | MinVersion      // min_version is not a supported version string
    | MaxVersion      // max_version is not a supported version string
    | LoadConfig      // the common settings failed inside a client or server builder

  datatype Error =
    | Foreign(message: string)                 // an error produced outside this model
    | ReadCA(path: string, cause: Error)       // the CA file could not be read
    | ParseCA(path: string)                    // the CA file held no usable certificate
    | UnsupportedVersion(version: string)      // a version string outside the table
    | IncompleteCertKey                        // exactly one of cert_file / key_file set
    | Wrapped(context: Context, cause: Error)  // `fmt.Errorf("<context>: %w", cause)`

  /** A parsed certificate chain with its private key (tls.Certificate). */
  datatype Certificate = Certificate(chain: seq<seq<bv8>>, privateKey: seq<bv8>)

  /** A set of trusted CA certificates (x509.CertPool). */
  datatype CertPool = CertPool(subjects: seq<seq<bv8>>)

  /** The calls into code outside the model, as oracles fixed per call site.
      - readFile: os.ReadFile of a (cleaned) path.
      - appendCertsFromPem: a fresh pool with the PEM blocks appended, or None
        when no certificate could be parsed.
      - loadKeyPair: tls.LoadX509KeyPair(certFile, keyFile).
      - newClientCAsReloader: builds the client-CA reloader and yields its pool.
      - startWatching: starts the client-CA file watch; Some(err) on failure. */
  datatype Disk = Disk(
    readFile: string -> Result<seq<bv8>>,
    appendCertsFromPem: seq<bv8> -> Option<CertPool>,
    loadKeyPair: (string, string) -> Result<Certificate>,
    newClientCAsReloader: string -> Result<CertPool>,
    startWatching: string -> Option<Error>)
}
