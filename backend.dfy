/** The address strings of the donations backend that the gateway calls. The
    identifier or file name from the caller is spliced into the address
    string verbatim. How the HTTP client then splits that string (at `?` or
    `#`) and quotes it is not part of this model. */
module Backend {

  /** Root of the backend's REST interface. */
  const ApiRoot: string := "http://localhost:5000/api/"

  /** Prefix of the availability update addressed by the notification route. */
  const DonationsPrefix: string := ApiRoot + "donations/"

  /** Prefix of the upload storage read by the image proxy. */
  const UploadsPrefix: string := ApiRoot + "uploads/"

  /** An address made of a fixed prefix followed by a caller-supplied segment,
      as Python's f-string builds it: the segment can be read back from the
      address. */
  function ResourceUrl(prefix: string, segment: string): (url: string)
    ensures |url| == |prefix| + |segment|
    ensures url[..|prefix|] == prefix && url[|prefix|..] == segment
  {
    prefix + segment
  }

  /** The address of the availability update for one donation. */
  function AvailabilityUrl(donationId: string): (url: string)
    ensures |url| == |DonationsPrefix| + |donationId|
    ensures url[..|DonationsPrefix|] == DonationsPrefix
    ensures url[|DonationsPrefix|..] == donationId
  {
    ResourceUrl(DonationsPrefix, donationId)
  }

  /** The address of one uploaded file. */
  function UploadUrl(filename: string): (url: string)
    ensures |url| == |UploadsPrefix| + |filename|
    ensures url[..|UploadsPrefix|] == UploadsPrefix
    ensures url[|UploadsPrefix|..] == filename
  {
    ResourceUrl(UploadsPrefix, filename)
  }

  /** Distinct segments give distinct address strings. */
  lemma ResourceUrlInjective(prefix: string, a: string, b: string)
    requires ResourceUrl(prefix, a) == ResourceUrl(prefix, b)
    ensures a == b
  {
  }
}
