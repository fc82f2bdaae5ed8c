/** Resolution of the `min_version` / `max_version` strings into TLS wire
    version codes (section 4.2.1 of RFC 8446 lists 0x0304 for TLS 1.3;
    0x0301 through 0x0303 are TLS 1.0 through 1.2). */
module TlsVersion {
  import opened Options
  import opened TlsTypes

  const VersionTLS10: uint16 := 0x0301
  const VersionTLS11: uint16 := 0x0302
  const VersionTLS12: uint16 := 0x0303
  const VersionTLS13: uint16 := 0x0304

  /** An unset min_version means TLS 1.2, so no vulnerable version is
      accepted by default. */
  const DefaultMinTlsVersion: uint16 := VersionTLS12

  /** An unset max_version is 0, which the TLS library reads as its own
      maximum supported version. */
  const DefaultMaxTlsVersion: uint16 := 0

  /** The table of accepted version strings. */
  const TlsVersions: map<string, uint16> :=
    map["1.0" := VersionTLS10, "1.1" := VersionTLS11, "1.2" := VersionTLS12, "1.3" := VersionTLS13]

  /** The empty string selects the caller's default; a table entry selects its
      code; anything else is refused. */
  function ConvertVersion(v: string, defaultVersion: uint16): (r: Result<uint16>)
    ensures v == "" ==> r == Ok(defaultVersion)
    ensures v == "1.0" ==> r == Ok(0x0301)
    ensures v == "1.1" ==> r == Ok(0x0302)
    ensures v == "1.2" ==> r == Ok(0x0303)
    ensures v == "1.3" ==> r == Ok(0x0304)
    ensures r.Err? <==> v !in {"", "1.0", "1.1", "1.2", "1.3"}
    ensures r.Err? ==> r.error == UnsupportedVersion(v)
  {
    if v == "" then
      Ok(defaultVersion)
    else if v in TlsVersions then
      Ok(TlsVersions[v])
    else
      Err(UnsupportedVersion(v))
  }

  /** The version string that names a wire code, if any: the inverse of the
      table. */
  function VersionName(code: uint16): Option<string> {
    match code
    case 0x0301 => Some("1.0")
    case 0x0302 => Some("1.1")
    case 0x0303 => Some("1.2")
    case 0x0304 => Some("1.3")
    case _ => None
  }

  /** Every non-empty accepted string resolves to the code it names, and every
      named code resolves back from its name: the table is a bijection between
      the four strings and 0x0301..0x0304, independent of the default. */
  lemma ConvertVersionRoundTrip(v: string, code: uint16, defaultVersion: uint16)
    ensures v != "" && ConvertVersion(v, defaultVersion) == Ok(code) ==> VersionName(code) == Some(v)
    ensures VersionName(code) == Some(v) ==> ConvertVersion(v, defaultVersion) == Ok(code)
    ensures v != "" && ConvertVersion(v, defaultVersion).Ok? ==> 0x0301 <= ConvertVersion(v, defaultVersion).value <= 0x0304
  {
  }
}
